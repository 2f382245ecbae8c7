# Verbiverse LLM core, modelled in Dafny

Verbiverse is a desktop reader for PDF documents. The user selects text and
gets an explanation, or asks questions about the document and gets answers
from a retrieval-augmented chat chain. This project models the two small
pieces of sequential logic in its LLM layer.

- `rag_chat.dfy` (module `RagChat`) models `ChatRAGChain`. It covers:
  - the per-document vector-store directory, `folder + "/" + md5hex(pdf_path) + "_db"`;
  - the per-session history map, which creates an empty history for an id the first time it is seen;
  - the trimming of the chain's history to its 10 most recent messages;
  - the not-ready guards of `invoke` and `stream`.
  Value-level functions (`Trimmed`, `AfterTurn`, `Conversation`) specify the in-place methods. Lemmas prove the history bound, idempotence, FIFO eviction, and that under one folder the path and the digest determine each other.
- `explain_worker.dfy` (module `ExplainWorker`) models `ExplainWorkerThread`. It covers:
  - choosing the answer language from the explain-mode variant;
  - building the request record;
  - the `quit` flag and `stop`;
  - the `run` delivery loop with cooperative cancellation.
  `StreamEmissions` and `SingleShotEmissions` are reference definitions of what `run` delivers. Lemmas prove that a streamed run delivers exactly a prefix of the chunks, cut at the first check that finds the flag up, and that nothing is delivered after that.
- `llm_config.dfy` holds the configured values both components read: the chat model, or its absence when building it raises; the target language; and the mother tongue.
- `wrappers.dfy` holds `Option`, which stands for the source's `None`-or-object attributes.

Inputs the model takes as parameters instead of computing them:
- the md5 hex digest, a function `string -> string`;
- the answer of the composed chain, a function of the chain handle, the history it sees and the request record;
- the fragments the chain streams;
- the outcome of building the vector store and the chat model, as `Option` values;
- the moment another thread calls `stop`, as `stopAt: Option<nat>`. `Some(k)` means the call lands just before the k-th check of `quit`.

Points where the model relies on the chat library rather than on the cited lines:
- `ChatMessageHistory.clear()` rebinds the message list instead of emptying it in place. So the list that `trim_messages` read before clearing still holds every message, and the loop re-adds its last 10. `ChatMessageHistory.Clear` models that rebinding.
- `RunnableWithMessageHistory` appends the question and the answer to the history once a call finishes, and returns the retrieval chain's output record (keys `input`, `chat_history`, `context`, `answer`). `CallTrimmingChain` models both.

## Model

| member | source | states |
|---|---|---|
| RagChat.DatabasePath | verbiverse/LLM/ChatRAGChain.py:45-49 | the path is the folder, then "/", then the md5 hex digest of the pdf path, then "_db", each at its position |
| RagChat.DigestOf | verbiverse/LLM/ChatRAGChain.py:45-49 | reading the digest back from a path under a folder yields a string of the length left between the "/" and the "_db" suffix |
| RagChat.DigestRoundTrip | verbiverse/LLM/ChatRAGChain.py:45-49 | the digest read back from a database path is the digest of the pdf path |
| RagChat.DatabasePathDeterminedByDigest | verbiverse/LLM/ChatRAGChain.py:45-49 | under one folder, two pdf paths get the same directory if and only if their digests agree; the same path always gives the same directory |
| RagChat.Trimmed | verbiverse/LLM/ChatRAGChain.py:140-149 | the trimmed history keeps min(length, 10) messages and is a suffix of the original, so order is preserved |
| RagChat.TrimmedEvictsOldest | verbiverse/LLM/ChatRAGChain.py:142-147 | the original history is the dropped oldest messages followed by the kept ones; the result has at most 10 messages; trimming it again changes nothing |
| RagChat.AfterTurn | verbiverse/LLM/ChatRAGChain.py:130-133 | after one invoke the history is exactly the trimmed old history followed by the question and the answer: its length is that of the trimmed history plus 2, at most 12, and it is a suffix of the old history plus that exchange |
| RagChat.Conversation | verbiverse/LLM/ChatRAGChain.py:130-133 | after a non-empty run of invokes the history always ends with the last question and its answer |
| RagChat.ConversationBounded | verbiverse/LLM/ChatRAGChain.py:130-149 | after any non-empty run of invokes the history is exactly the last min(length of the untrimmed transcript, 12) messages of that transcript, so only the oldest messages are lost |
| RagChat.ChatMessageHistory.constructor | verbiverse/LLM/ChatRAGChain.py:137 | a new history is empty |
| RagChat.ChatMessageHistory.Clear | verbiverse/LLM/ChatRAGChain.py:145 | clearing leaves the history empty |
| RagChat.ChatMessageHistory.AddMessage | verbiverse/LLM/ChatRAGChain.py:147 | adding a message appends it at the end |
| RagChat.ChatRagChain.constructor | verbiverse/LLM/ChatRAGChain.py:43-52 | the database path is DatabasePath of the configured folder and the pdf path; the session map is empty; no store, chat model, history or chain is present yet |
| RagChat.ChatRagChain.CreateChatChain | verbiverse/LLM/ChatRAGChain.py:61-74 | the store is recorded; if it is absent nothing else changes; if the chat model fails only `rag_chain` is reset; otherwise a fresh, empty history is created and both chain handles are set; the session map and the path never change |
| RagChat.ChatRagChain.GetSessionHistory | verbiverse/LLM/ChatRAGChain.py:135-138 | for an unseen id, a fresh empty history is added under that id only and returned; for a known id, the stored history is returned and the map is unchanged |
| RagChat.ChatRagChain.TrimMessages | verbiverse/LLM/ChatRAGChain.py:140-149 | returns true exactly when the history held more than 10 messages; afterwards the history is Trimmed of the old one |
| RagChat.ChatRagChain.CallTrimmingChain | verbiverse/LLM/ChatRAGChain.py:130-133 | one call of the ready trimming chain: the chain sees the trimmed history and the `{"input": message}` record, its output record carries the input, that history and the answer, and the history becomes AfterTurn of the old one |
| RagChat.ChatRagChain.InvokeAsWritten | verbiverse/LLM/ChatRAGChain.py:151-159 | not ready: returns None and leaves the history alone; ready: the exchange is recorded (AfterTurn) and the call then raises AttributeError on `.content` |
| RagChat.ChatRagChain.Invoke | verbiverse/LLM/ChatRAGChain.py:151-159 | intended invoke: not ready (no trimming chain): returns None and leaves the history alone; ready: returns the answer the chain gave from the trimmed history, and the history becomes AfterTurn of the old one |
| RagChat.InvokeAsWrittenRaisesAfterBuild | verbiverse/LLM/ChatRAGChain.py:151-159 | after one successful build, asking "hi" raises in the as-written invoke, while the intended invoke returns the chain's answer |
| RagChat.ChatRagChain.Stream | verbiverse/LLM/ChatRAGChain.py:161-171 | returns None exactly when there is no message-history chain; otherwise the chain's fragments for the current, untrimmed history and the record with input and language |
| ExplainWorker.StreamEmissions | verbiverse/LLM/ExplainWorkerThread.py:64-68 | reference definition of the streaming loop; what it delivers is always a leading part of the chunks, in order |
| ExplainWorker.CutPoint | verbiverse/LLM/ExplainWorkerThread.py:64-67 | no chunk gets through if the flag is already up; all of them if stop never lands; otherwise those before the stop point |
| ExplainWorker.StreamEmissionsPrefix | verbiverse/LLM/ExplainWorkerThread.py:62-68 | the streamed deliveries are exactly the chunks, in order, up to but not including the first chunk at whose check the flag is up |
| ExplainWorker.NeverStoppedEmitsAll | verbiverse/LLM/ExplainWorkerThread.py:64-68 | if the flag stays down, every chunk is delivered |
| ExplainWorker.CancellationIsFinal | verbiverse/LLM/ExplainWorkerThread.py:64-67 | with the flag up nothing is delivered; once stop lands at check k, at most k chunks are delivered and chunks produced later change nothing |
| ExplainWorker.SingleShotEmissions | verbiverse/LLM/ExplainWorkerThread.py:69-74 | single-shot mode delivers exactly the full answer if the flag is down after it is produced, and nothing otherwise |
| ExplainWorker.ExplainWorkerThread.constructor | verbiverse/LLM/ExplainWorkerThread.py:18-37 | streaming is the default; quit is false and nothing has been delivered; with a chat model, the chain is set and the record maps word, data, language and answer_language to the selected text, the whole text, the target language and the answer language; without one, there is neither chain nor record |
| ExplainWorker.ExplainWorkerThread.CreateExplainChain | verbiverse/LLM/ExplainWorkerThread.py:39-53 | if the chat model fails nothing is set; otherwise the answer language is the target language for the target-language variant and the mother tongue for any other, and the chain is the variant's prompt piped into the chat model |
| ExplainWorker.ExplainWorkerThread.Stop | verbiverse/LLM/ExplainWorkerThread.py:55-56 | the flag is up afterwards and no other field changes |
| ExplainWorker.ExplainWorkerThread.EmitMessage | verbiverse/LLM/ExplainWorkerThread.py:68 | one delivery through the callback appends the value to what has been delivered |
| ExplainWorker.ExplainWorkerThread.Run | verbiverse/LLM/ExplainWorkerThread.py:58-74 | without a chain nothing is delivered and the flag is unchanged; streaming delivers StreamEmissions of the produced chunks; single-shot delivers SingleShotEmissions of the produced answer; the flag ends up raised exactly when it already was or the stop landed during the run |

## Left out

- `loadDatabase`, the text splitting and embedding, and the Chroma store: disk I/O inside foreign libraries. The store is an opaque handle passed to `CreateChatChain`.
- The prompt templates and the composition of the retrieval chain: foreign-library wiring. The chain is an opaque handle; its answers and fragments are parameters.
- The status notifications of `createChatChain` and the `asyncio.to_thread` off-loading: event plumbing and concurrency.
- The logging calls, the `print` in `stream`, and the `session_id` configuration passed to the chain. The chain's history lambda ignores the session id, and `get_session_history` is never wired into the chain.
- md5 itself: the hex digest, including the UTF-8 encoding of the path, is a parameter.
- Real threads and the QThread/Signal machinery: cancellation is the input `stopAt`, and the signal is the `emitted` log.
- RagChat.ChatRagChain.Invoke: the source raises here (see "## Findings"); this member models the intended behaviour, and InvokeAsWritten the code as written.
- RagChat.ChatRagChain.Stream: the stream is lazy, and the history append that the message-history wrapper does when the stream is consumed is not modelled. The chain streams partial output records; the model takes them as text fragments.
- RagChat.ChatRagChain.CreateChatChain: in the source, `chain_with_trimming` and `chain_with_message_history` do not exist until the first successful build. The model starts them at None, so `invoke` before any build returns None instead of raising.
- ExplainWorker.ExplainWorkerThread.constructor: when the chat model cannot be built, the source raises at `ExplainWorkerThread.py:33` because `target_language` was never set. The model instead leaves the record absent and the chain None.
- ExplainWorker.ExplainWorkerThread.Run: single-shot mode emits the chain's whole result object; the model emits its text.
- The unused `chain_with_trimming` attribute that `createExplainChain` sets to None.
- The `ExplainLanguage` enum is defined in `Functions/LanguageType`, which is not part of this model. It is modelled with two variants. The code's `else` branch covers every non-target variant.
- SettingInterface and ExplainFlyoutView: widget layout and painting, with no logic to model.

## Findings

| source | as written | input that shows it | evidently intended | confidence | as-written member | corrected member |
|---|---|---|---|---|---|---|
| verbiverse/LLM/ChatRAGChain.py:156-159 | `invoke` reads `.content` of the chain's result. That result is the retrieval chain's output dict (the `answer` key is named at line 127), which has no such attribute, so every ready call raises AttributeError after the exchange has already been added to the history | `invoke("hi")` after one successful `createChatChain` | return the dict's `"answer"` entry | not executed; follows from the chat library's output shape | RagChat.ChatRagChain.InvokeAsWritten | RagChat.ChatRagChain.Invoke |
