# lite_tutor: the knowledge base and the edge compute tool, in Dafny

This project models the two pieces of deterministic logic in the lite_tutor
tutoring backend and proves what they promise.

- **The local knowledge base** (`LocalRAGKnowledgeBase`, skills/rag_builder.py).
  `ingest_text_file` cuts a file's text into fixed-width chunks, one per
  element of `range(0, len(text), chunk_size)`. Chunk `i` gets the id
  `"<basename>_chunk_<i>"` and the metadata `{"source": <path>}`. The three
  parallel lists go to the vector store in one `add`. `query_knowledge`
  turns the store's answer into one context string. If the answer is empty,
  the result is a fixed sentinel. Otherwise it is the documents joined by
  `"\n---\n"`.
- **The edge compute tool** (`EdgeComputeTool`, skills/edge_tool.py). The
  endpoint is the configured base URL with every trailing `/` removed,
  followed by `/solve`. `get_tool_schema` returns a fixed function-calling
  schema. `execute` turns the outcome of its POST into one of three reply
  shapes.

Files:

- `wrappers.dfy`: `Option` and `Result`.
- `strings.dfy`: Python slicing, `''.join` and `sep.join`.
- `decimal.dfy`: Python's `str(n)` for a natural number, and reading the
  digits back.
- `rag_builder.dfy`: module `RagBuilder`, including the class
  `LocalRAGKnowledgeBase`, whose `collection` field is the abstract store.
- `edge_tool.dfy`: module `EdgeTool`, with a small JSON datatype for the
  schema and the request.

Modelling choices:

- The file is an `Option<string>`. `None` means the path does not exist.
- The vector store is the list of entries that `add` has received, in order.
- The nearest-neighbour query is an input: the list of documents it
  returned, in the store's order.
- The HTTP call is an input too: a status code with a body, or a raised
  exception with its message.
- A `chunk_size` of zero makes Python's `range` raise `ValueError`. That
  exception is not caught, so it reaches the caller. The model returns it as
  the error `ZeroChunkSize`, and nothing is added.
- A negative `chunk_size` gives an empty range, so the batch is empty.
- The docstring of `ingest_text_file` and the design description say the
  chunks are "upserted" and that a repeated id overwrites. The code calls
  `add`, so the model does not claim overwrite semantics. It follows the
  code.
- The design description names the empty-result sentinel in lower case
  ("no relevant context found"). The code returns
  `"No relevant context found in the local knowledge base."`, and the model
  uses the code's string.

## Model

| member | source | states |
|---|---|---|
| `Strings.Slice` | skills/rag_builder.py:40 | `text[i:j]` clamps both bounds to the length. It is the ordinary slice when the bounds are in range, and its length is the clamped difference. |
| `Decimal.NatToString` | skills/rag_builder.py:42 | The f-string rendering of a chunk index is a non-empty string of decimal digits, with no leading zero unless the index is below 10. |
| `Decimal.ParseNatToString` | skills/edge_tool.py:61 | Reading back the digits of `str(n)` gives `n`. |
| `Decimal.NatToStringInjective` | skills/rag_builder.py:42 | Two numbers print the same digits exactly when they are equal. |
| `RagBuilder.Basename` | skills/rag_builder.py:42 | `os.path.basename` (POSIX) is the suffix of the path that has no `/`. It is preceded by a `/` whenever it is not the whole path. |
| `RagBuilder.ChunksReassemble` | skills/rag_builder.py:40 | The chunks, concatenated in order, are exactly the text: no character is lost or repeated. |
| `RagBuilder.ChunksFromAt` | skills/rag_builder.py:40 | Chunk `k` starts at element `k` of the range, which lies inside the text, and it is the slice of `size` characters from there. |
| `RagBuilder.RangeAtIsProduct` | skills/rag_builder.py:40 | Element `k` of `range(start, _, step)` is `start + k*step`. |
| `RagBuilder.ChunkAt` | skills/rag_builder.py:40 | Chunk `k` is `text[k*C .. min((k+1)*C, len)]`, and `k*C < len`. |
| `RagBuilder.ChunkLengths` | skills/rag_builder.py:40 | Every chunk has exactly `C` characters except the last. The last has between 1 and `C`. |
| `RagBuilder.ChunksFromCount` | skills/rag_builder.py:40 | The number `n` of chunks from a start position is the ceiling of the remaining length over `C`: `(n-1)*C < len <= n*C`, and `n` is 0 when nothing remains. |
| `RagBuilder.ChunkCount` | skills/rag_builder.py:40 | There are `(len + C - 1) / C = ceil(len / C)` chunks. There are none exactly when the text is empty. |
| `RagBuilder.ChunkIdInjective` | skills/rag_builder.py:42 | Ids `basename_chunk_i` and `basename_chunk_j` are equal exactly when `i == j`. |
| `RagBuilder.ChunkIdsDistinct` | skills/rag_builder.py:42 | The ids of one ingestion are pairwise distinct. |
| `RagBuilder.BuildBatch` | skills/rag_builder.py:40-43 | Building the lists fails exactly when the chunk size is 0 (Python's `range` raises). Otherwise the three lists have equal length, and a negative size gives no documents. |
| `RagBuilder.PrepareIngest` | skills/rag_builder.py:28-43 | A missing file gives `FileNotFound(path)`. For an existing file the result fails exactly when the chunk size is 0. Every batch has parallel lists. |
| `RagBuilder.Entries` | skills/rag_builder.py:46-50 | `add` pairs up position `i` of ids, documents and metadatas into entry `i`, one entry per id. |
| `RagBuilder.IngestBatchDocuments` | skills/rag_builder.py:40 | For an existing file and a positive size, ingestion succeeds, the documents rebuild the text, and there are `ceil(len/C)` of them. |
| `RagBuilder.IngestBatchLabels` | skills/rag_builder.py:42-43 | For an existing file and a non-zero size, id `i` is `basename + "_chunk_" + str(i)`, and the ids are pairwise distinct. Every metadata record is exactly `{"source": file_path}`: the full path, not the base name. |
| `RagBuilder.QueryKnowledge` | skills/rag_builder.py:61-66 | An empty answer gives the fixed sentinel, and a single document comes back unchanged. Otherwise the length is the documents' total length plus one separator between each two neighbours. |
| `RagBuilder.QueryKnowledgeAppend` | skills/rag_builder.py:65 | The context of `a + b` is the context of `a`, the separator, then the context of `b`, so the store's order is kept. |
| `Strings.JoinAppend` | skills/rag_builder.py:65 | `sep.join(a + b)` is `sep.join(a) + sep + sep.join(b)` for non-empty `a` and `b`. |
| `Strings.JoinLength` | skills/rag_builder.py:65 | The length of a join is the parts' total length plus `(n-1)` separators. |
| `RagBuilder.LocalRAGKnowledgeBase.constructor` | skills/rag_builder.py:11-25 | The knowledge base opens the named collection at the given path, holding what was persisted there before. |
| `RagBuilder.LocalRAGKnowledgeBase.IngestTextFile` | skills/rag_builder.py:28-51 | A missing file, or a chunk size of 0, leaves the store unchanged and reports the error. Otherwise the store grows by exactly the batch's entries, and the chunk count is reported. |
| `EdgeTool.RStripSlash` | skills/edge_tool.py:13 | `rstrip('/')` gives a prefix of the input followed only by slashes, and that prefix does not end in `/`. |
| `EdgeTool.RStripSlashUnique` | skills/edge_tool.py:13 | Those three properties determine the result: any string that has them is `rstrip('/')` of the input. |
| `EdgeTool.RStripSlashIdempotent` | skills/edge_tool.py:13 | Stripping twice is stripping once. |
| `EdgeTool.RStripSlashIgnoresSlashes` | skills/edge_tool.py:13 | Appending any number of `/` does not change the stripped string. |
| `EdgeTool.NewEdgeComputeTool` | skills/edge_tool.py:11-19 | The tool's name is `edge_compute_sandbox` and its description is fixed. `api_url` ends in `/solve`. The part before `/solve` is the base URL without its trailing slashes, and it never ends in `/`. |
| `EdgeTool.ApiUrlIgnoresTrailingSlashes` | skills/edge_tool.py:13 | `u` and `u` followed by `k` slashes give the same `api_url`. |
| `EdgeTool.ApiUrlIdempotent` | skills/edge_tool.py:13 | Building a tool from the base part of an `api_url` gives the same `api_url`. |
| `EdgeTool.SchemaDescribesTool` | skills/edge_tool.py:26-30 | The schema's `type` is `"function"`. Its `function.name` and `function.description` are the tool's name and description. |
| `EdgeTool.SchemaRequiresInstruction` | skills/edge_tool.py:31-40 | `required` is exactly `["task_instruction"]`, and every required key is declared under `properties` with type `"string"`. |
| `EdgeTool.RequestPayload` | skills/edge_tool.py:50-55 | The POST goes to `api_url`, and its payload has exactly one key, `task_instruction`, bound to the instruction. |
| `EdgeTool.ExecuteKind` | skills/edge_tool.py:57-64 | Each outcome gets its own reply shape, recognised by the reply's start. A 200 with a readable body gives the status reply. Any other code gives the failure reply. A raised exception, including an unreadable 200 body, gives the offline-error reply. |
| `EdgeTool.ExecuteSucceeded` | skills/edge_tool.py:57-59 | A 200 reply is `"Tool Execution Status: " + status + ". Receipt: " + solution`, with a missing field rendered as `None`. |
| `EdgeTool.ExecuteFailedCode` | skills/edge_tool.py:60-61 | Any other code gives `"Tool Execution Failed with status code: "` followed by the code's decimal digits, and those digits read back to the code. |
| `EdgeTool.ExecuteErrorMessage` | skills/edge_tool.py:53-64 | Anything raised gives `"Tool Execution Error (Edge node might be offline): "` followed by the exception's message. It is a reply, never a propagated error. |

## Left out

- ChromaDB itself (skills/rag_builder.py:14-25, 46-50, 56-59) is not modelled: the persistent client, the SentenceTransformer embedding, nearest-neighbour ranking, how `add` treats a repeated id or an empty batch, and how many documents a query returns for `n_results`. These are behaviour of a library that is not part of this model. The store is a log of what `add` received, and the query's answer is an input.
- RagBuilder.QueryKnowledge: does not state that at most `n_results` documents come back. That bound is the store's promise, not this code's.
- Ids depend only on the base name. Two files with the same base name in different directories produce the same ids. The model states the ids; what the store then does with the clash is not modelled.
- File access (`os.path.exists`, `open(...).read()`, skills/rag_builder.py:30, 35-36) is reduced to an optional text. A path that exists but cannot be read or decoded (a directory, invalid UTF-8) raises in Python and is not modelled.
- RagBuilder.Basename: models POSIX `os.path.basename` ("text after the last `/`"). The Windows variant, which also splits on `\` and drive letters, is not modelled.
- Network I/O (`requests.post` and its 10-second timeout, skills/edge_tool.py:55) is not performed. The outcome is an input, and the timeout is only a field of the request.
- EdgeTool.ExecuteSucceeded: takes each response field already rendered by Python's `str()`. Rendering non-string JSON values (numbers, lists, objects) the way Python does is not modelled. A missing key and a JSON `null` both render as `None`.
- EdgeTool.ExecuteFailedCode: status codes are natural numbers. HTTP status codes are never negative.
- `print` logging in both files is not behaviour and is left out.
- skills/server.py (FastAPI routes, shell dispatch through `subprocess.Popen`, module-level construction of the knowledge base) is HTTP and process plumbing and is not part of this model.
- skills/app.py (the Streamlit chat UI and its typewriter loop) and skills/temp_calc.py (a fixed sympy script) are not part of this model.
- Hybrid vector-plus-keyword fusion, the hash-bucket fallback embedding, keyword search and the diagnose→explain→quiz→validate→complete tutoring state machine are described for this system, but no file of the code implements them. There is nothing to model them against, so they are left out.
