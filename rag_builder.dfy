/** The local knowledge base of skills/rag_builder.py: a text file is cut into
    fixed-width chunks, each chunk gets an id built from the file's base name
    and its index and a metadata record naming the file, and the three
    parallel lists go to the vector store in one `add` call. A query's answer
    (the documents the store's nearest-neighbour search returns) is turned
    into one context string.

    The vector store is abstract: `collection` is the list of entries it has
    been handed, in order. How it embeds, ranks and treats a repeated id is
    not part of this model. */
module RagBuilder {
  import opened Wrappers
  import opened Strings
  import opened Decimal

  const DefaultDbPath: string := "./chroma_db"
  const DefaultCollectionName: string := "lite_tutor_kb"
  const DefaultChunkSize: int := 500
  const DefaultNResults: int := 2

  /** What `query_knowledge` answers when the store returns no document. */
  const NoContextMessage: string := "No relevant context found in the local knowledge base."
  /** What `query_knowledge` puts between two retrieved documents. */
  const ContextSeparator: string := "\n---\n"
  const IdInfix: string := "_chunk_"
  const SourceKey: string := "source"

  /** A metadata record, a Python dict from string to string. */
  type Metadata = map<string, string>

  /** One stored item: what the store keeps for one position of an `add` batch. */
  datatype Entry = Entry(id: string, document: string, metadata: Metadata)

  /** The three parallel lists handed to the store's `add`. */
  datatype Batch = Batch(documents: seq<string>, metadatas: seq<Metadata>, ids: seq<string>)

  /** The two ways an ingestion ends without adding anything: the file does
      not exist (reported and returned from), or a chunk size of zero, which
      Python's `range` rejects with a `ValueError` that reaches the caller. */
  datatype IngestError = FileNotFound(path: string) | ZeroChunkSize

  predicate Parallel(b: Batch) {
    |b.documents| == |b.metadatas| == |b.ids|
  }

  /** The base name of a path, as POSIX `os.path.basename` gives it: the text
      after the last `/`, the whole path when it has none. */
  function Basename(path: string): (b: string)
    ensures |b| <= |path| && b == path[|path| - |b|..]
    ensures '/' !in b
    ensures |b| < |path| ==> path[|path| - |b| - 1] == '/'
  {
    if path == [] || path[|path| - 1] == '/' then ""
    else Basename(path[..|path| - 1]) + [path[|path| - 1]]
  }

  /** The chunks `text[i:i+size]` for `i` in `range(start, len(text), size)`. */
  function ChunksFrom(text: string, start: nat, size: nat): seq<string>
    requires size > 0
    decreases |text| - start
  {
    if start >= |text| then []
    else [Slice(text, start, start + size)] + ChunksFrom(text, start + size, size)
  }

  /** The chunk list of `ingest_text_file` for a positive chunk size. */
  function Chunks(text: string, size: nat): seq<string>
    requires size > 0
  {
    ChunksFrom(text, 0, size)
  }

  /** The id of chunk `i` of a file whose base name is `base`. */
  function ChunkId(base: string, i: nat): string {
    base + IdInfix + NatToString(i)
  }

  function ChunkIds(base: string, n: nat): seq<string> {
    seq(n, i requires 0 <= i => ChunkId(base, i))
  }

  function SourceMetadata(filePath: string): Metadata {
    map[SourceKey := filePath]
  }

  function Metadatas(filePath: string, n: nat): seq<Metadata> {
    seq(n, _ => SourceMetadata(filePath))
  }

  /** The batch built from the text of `filePath`. A negative chunk size makes
      `range(0, len(text), size)` empty, so the batch is empty. */
  function BuildBatch(filePath: string, text: string, chunkSize: int): (r: Result<Batch, IngestError>)
    ensures r.Failure? <==> chunkSize == 0
    ensures r.Failure? ==> r.error == ZeroChunkSize
    ensures r.Success? ==> Parallel(r.value)
    ensures r.Success? && chunkSize < 0 ==> r.value.documents == []
  {
    if chunkSize == 0 then Failure(ZeroChunkSize)
    else
      var chunks := if chunkSize < 0 then [] else Chunks(text, chunkSize);
      Success(Batch(chunks, Metadatas(filePath, |chunks|), ChunkIds(Basename(filePath), |chunks|)))
  }

  /** What `ingest_text_file` hands to the store, or why it hands nothing.
      `file` is the file's text, `None` when the path does not exist. */
  function PrepareIngest(filePath: string, file: Option<string>, chunkSize: int): (r: Result<Batch, IngestError>)
    ensures file.None? ==> r == Failure(FileNotFound(filePath))
    ensures file.Some? ==> (r.Failure? <==> chunkSize == 0)
    ensures r.Success? ==> Parallel(r.value)
  {
    match file
    case None => Failure(FileNotFound(filePath))
    case Some(text) => BuildBatch(filePath, text, chunkSize)
  }

  /** The entries the store receives from one `add`: position `i` of each
      list forms entry `i`. */
  function Entries(b: Batch): (es: seq<Entry>)
    requires Parallel(b)
    ensures |es| == |b.ids|
    ensures forall i :: 0 <= i < |es| ==>
      es[i].id == b.ids[i] && es[i].document == b.documents[i] && es[i].metadata == b.metadatas[i]
  {
    seq(|b.ids|, i requires 0 <= i < |b.ids| => Entry(b.ids[i], b.documents[i], b.metadatas[i]))
  }

  /** The string `query_knowledge` returns for the documents the store found,
      given in the store's order. */
  function QueryKnowledge(documents: seq<string>): (context: string)
    ensures documents == [] ==> context == NoContextMessage
    ensures |documents| == 1 ==> context == documents[0]
    ensures documents != [] ==>
      |context| == TotalLength(documents) + (|documents| - 1) * |ContextSeparator|
  {
    if documents == [] then NoContextMessage
    else
      JoinLength(documents, ContextSeparator);
      Join(documents, ContextSeparator)
  }

  // ---------------------------------------------------------------------
  // Chunking

  /** Writing the chunks out one after another gives back the text from
      `start` on: no character is lost or repeated. */
  lemma {:induction false} ChunksFromConcat(text: string, start: nat, size: nat)
    requires size > 0 && start <= |text|
    ensures Concat(ChunksFrom(text, start, size)) == text[start..]
    decreases |text| - start
  {
    if start < |text| {
      var head := Slice(text, start, start + size);
      var rest := ChunksFrom(text, start + size, size);
      assert ([head] + rest)[1..] == rest;
      if start + size < |text| {
        ChunksFromConcat(text, start + size, size);
        assert text[start..] == text[start..start + size] + text[start + size..];
      } else {
        assert rest == [];
      }
    }
  }

  /** The chunks of a text, concatenated in order, are the text. */
  lemma ChunksReassemble(text: string, size: nat)
    requires size > 0
    ensures Concat(Chunks(text, size)) == text
  {
    ChunksFromConcat(text, 0, size);
  }

  /** Element `k` of `range(start, _, step)`, reached by `k` steps. */
  function RangeAt(start: nat, step: nat, k: nat): nat
    decreases k
  {
    if k == 0 then start else RangeAt(start + step, step, k - 1)
  }

  lemma {:induction false} RangeAtIsProduct(start: nat, step: nat, k: nat)
    ensures RangeAt(start, step, k) == start + k * step
    decreases k
  {
    if k > 0 {
      RangeAtIsProduct(start + step, step, k - 1);
      MulSucc(k - 1, step);
    }
  }

  /** Chunk `k` from `start` begins at element `k` of the range, which is
      inside the text. */
  lemma {:induction false} ChunksFromAt(text: string, start: nat, size: nat, k: nat)
    requires size > 0 && k < |ChunksFrom(text, start, size)|
    ensures RangeAt(start, size, k) < |text|
    ensures ChunksFrom(text, start, size)[k] == Slice(text, RangeAt(start, size, k), RangeAt(start, size, k) + size)
    decreases k
  {
    if k > 0 {
      ChunksFromAt(text, start + size, size, k - 1);
    }
  }

  /** Chunk `k` is `text[k*size .. min((k+1)*size, len(text))]`. */
  lemma ChunkAt(text: string, size: nat, k: nat)
    requires size > 0 && k < |Chunks(text, size)|
    ensures k * size < |text|
    ensures Chunks(text, size)[k] == text[k * size .. Min((k + 1) * size, |text|)]
  {
    ChunksFromAt(text, 0, size, k);
    RangeAtIsProduct(0, size, k);
    MulSucc(k, size);
  }

  /** Every chunk has exactly `size` characters except the last, which has
      at least one and at most `size`. */
  lemma ChunkLengths(text: string, size: nat)
    requires size > 0
    ensures forall k :: 0 <= k < |Chunks(text, size)| - 1 ==> |Chunks(text, size)[k]| == size
    ensures Chunks(text, size) != [] ==>
      0 < |Chunks(text, size)[|Chunks(text, size)| - 1]| <= size
  {
    var cs := Chunks(text, size);
    forall k | 0 <= k < |cs| - 1
      ensures |cs[k]| == size
    {
      ChunkAt(text, size, k);
      ChunkAt(text, size, k + 1);
      MulSucc(k, size);
    }
    if cs != [] {
      ChunkAt(text, size, |cs| - 1);
      MulSucc(|cs| - 1, size);
    }
  }

  lemma MulSucc(k: int, d: int)
    ensures (k + 1) * d == k * d + d
  {
  }

  lemma MulBelowDivisor(m: int, d: int)
    requires d > 0
    ensures m * d < d ==> m <= 0
  {
  }

  /** A quotient is determined by the multiples of `d` around `x`; used to
      count the chunks. */
  lemma DivQuotient(x: int, d: int, q: int)
    requires d > 0 && q * d <= x < (q + 1) * d
    ensures x / d == q
  {
    var q', r' := x / d, x % d;
    assert x == q' * d + r' && 0 <= r' < d;
    MulSucc(q, d);
    assert (q' - q) * d == q' * d - q * d;
    MulBelowDivisor(q' - q, d);
    assert (q - q') * d == q * d - q' * d;
    MulBelowDivisor(q - q', d);
  }

  /** The number `n` of chunks from `start` is the ceiling of the remaining
      length over `size`: `(n - 1) * size < len <= n * size`. */
  lemma {:induction false} ChunksFromCount(text: string, start: nat, size: nat)
    requires size > 0 && start <= |text|
    ensures var n, len := |ChunksFrom(text, start, size)|, |text| - start;
      if len == 0 then n == 0 else (n - 1) * size < len <= n * size
    decreases |text| - start
  {
    var len := |text| - start;
    if 0 < len <= size {
      assert ChunksFrom(text, start + size, size) == [];
    } else if len > size {
      ChunksFromCount(text, start + size, size);
      var m := |ChunksFrom(text, start + size, size)|;
      MulSucc(m - 1, size);
      MulSucc(m, size);
    }
  }

  /** There are `ceil(len(text) / size)` chunks; an empty text has none. */
  lemma ChunkCount(text: string, size: nat)
    requires size > 0
    ensures |Chunks(text, size)| == (|text| + size - 1) / size
    ensures |Chunks(text, size)| == 0 <==> text == ""
  {
    var n := |Chunks(text, size)|;
    ChunksFromCount(text, 0, size);
    if text == "" {
      DivQuotient(size - 1, size, 0);
    } else {
      MulSucc(n - 1, size);
      DivQuotient(|text| + size - 1, size, n);
    }
  }

  // ---------------------------------------------------------------------
  // Ids and metadata

  /** Two chunks of one file get the same id only when they are the same chunk. */
  lemma ChunkIdInjective(base: string, i: nat, j: nat)
    ensures ChunkId(base, i) == ChunkId(base, j) <==> i == j
  {
    PrefixCancel(base + IdInfix, NatToString(i), NatToString(j));
    NatToStringInjective(i, j);
  }

  lemma ChunkIdsDistinct(base: string, n: nat)
    ensures forall i, j :: 0 <= i < n && 0 <= j < n && i != j ==> ChunkIds(base, n)[i] != ChunkIds(base, n)[j]
  {
    forall i, j | 0 <= i < n && 0 <= j < n && i != j
      ensures ChunkIds(base, n)[i] != ChunkIds(base, n)[j]
    {
      ChunkIdInjective(base, i, j);
    }
  }

  lemma ChunkIdsSpelled(base: string, n: nat)
    ensures |ChunkIds(base, n)| == n
    ensures forall i :: 0 <= i < n ==> ChunkIds(base, n)[i] == base + "_chunk_" + NatToString(i)
  {
  }

  lemma MetadatasNameSource(filePath: string, n: nat)
    ensures |Metadatas(filePath, n)| == n
    ensures forall i :: 0 <= i < n ==> Metadatas(filePath, n)[i] == map["source" := filePath]
  {
  }

  /** The documents an ingestion of an existing file with a positive chunk
      size hands to the store rebuild the text and number `ceil(len/size)`. */
  lemma IngestBatchDocuments(filePath: string, text: string, size: nat)
    requires size > 0
    ensures PrepareIngest(filePath, Some(text), size).Success?
    ensures var b := PrepareIngest(filePath, Some(text), size).value;
      && Concat(b.documents) == text
      && |b.documents| == (|text| + size - 1) / size
  {
    var b := PrepareIngest(filePath, Some(text), size).value;
    assert b.documents == Chunks(text, size);
    ChunksReassemble(text, size);
    ChunkCount(text, size);
  }

  /** The labels of every ingested batch: id `i` is the base name with
      `_chunk_i`, the ids are pairwise distinct, and every metadata record
      names the full path given, not its base name. */
  lemma IngestBatchLabels(filePath: string, file: Option<string>, chunkSize: int)
    requires file.Some? && chunkSize != 0
    ensures var b := PrepareIngest(filePath, file, chunkSize).value;
      && |b.ids| == |b.metadatas| == |b.documents|
      && (forall i :: 0 <= i < |b.ids| ==> b.ids[i] == Basename(filePath) + "_chunk_" + NatToString(i))
      && (forall i, j :: 0 <= i < |b.ids| && 0 <= j < |b.ids| && i != j ==> b.ids[i] != b.ids[j])
      && (forall i :: 0 <= i < |b.metadatas| ==> b.metadatas[i] == map["source" := filePath])
  {
    var b := PrepareIngest(filePath, file, chunkSize).value;
    var n := |b.documents|;
    assert b.metadatas == Metadatas(filePath, n);
    assert b.ids == ChunkIds(Basename(filePath), n);
    ChunkIdsDistinct(Basename(filePath), n);
    ChunkIdsSpelled(Basename(filePath), n);
    MetadatasNameSource(filePath, n);
  }

  // ---------------------------------------------------------------------
  // Query formatting

  /** The context for a list of documents is the context of a first part,
      the separator, then the context of the rest: order is kept. */
  lemma QueryKnowledgeAppend(a: seq<string>, b: seq<string>)
    requires a != [] && b != []
    ensures QueryKnowledge(a + b) == QueryKnowledge(a) + ContextSeparator + QueryKnowledge(b)
  {
    JoinAppend(a, b, ContextSeparator);
  }

  // ---------------------------------------------------------------------
  // The knowledge base object

  class LocalRAGKnowledgeBase {
    const dbPath: string
    const collectionName: string
    /** The entries the store holds, in the order `add` received them. */
    var collection: seq<Entry>

    /** Opens (or creates) the named collection; `persisted` is what an
        earlier process left in it. */
    constructor (dbPath: string, collectionName: string, persisted: seq<Entry>)
      ensures this.dbPath == dbPath && this.collectionName == collectionName
      ensures collection == persisted
    {
      this.dbPath := dbPath;
      this.collectionName := collectionName;
      collection := persisted;
    }

    /** `ingest_text_file`: on success the store has grown by exactly the
        batch, entry by entry; on either error it is unchanged. The result
        carries the number of chunks added. */
    method IngestTextFile(filePath: string, file: Option<string>, chunkSize: int)
      returns (r: Result<nat, IngestError>)
      modifies this
      ensures file.None? ==> r == Failure(FileNotFound(filePath)) && collection == old(collection)
      ensures file.Some? && chunkSize == 0 ==> r == Failure(ZeroChunkSize) && collection == old(collection)
      ensures PrepareIngest(filePath, file, chunkSize).Success? ==>
        var b := PrepareIngest(filePath, file, chunkSize).value;
        r == Success(|b.documents|) && collection == old(collection) + Entries(b)
    {
      var prepared := PrepareIngest(filePath, file, chunkSize);
      if prepared.Failure? {
        r := Failure(prepared.error);
      } else {
        collection := collection + Entries(prepared.value);
        r := Success(|prepared.value.documents|);
      }
    }
  }
}
