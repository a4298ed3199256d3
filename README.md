# Offline document chatbot: a Dafny model

This project models the core of an offline, retrieval-augmented chatbot. Users
upload PDF, DOCX and TXT files. The files are read, cut into chunks and stored in
a persistent vector collection. Questions are answered by a local Ollama model,
either as general chat or grounded in the chunks most similar to the question.
There are two front ends, a Streamlit page and an HTTP API. A small helper turns
instruction/response examples into an Ollama Modelfile.

The modules follow the program's files:

- `DocumentProcessing` (document_processor.py): the `DocumentProcessor`
  class. It holds the collection as a sequence of records plus a counter for
  fresh ids. It covers dispatch by extension, the batch loop of
  `process_documents` with its result counts, chunk storage, the search result
  list, the statistics and clearing. Text extraction, splitting, embedding and
  the store's similarity query are collaborators, given as a `Backends` value.
- `Ollama`: the part both language-model handlers share. This covers the
  mapping of an HTTP outcome to the handler's result record, matching model
  names against `/api/tags`, the availability report and `test_connection`.
  The server itself is a function parameter.
- `OptimizedHandler` (llm_handler_optimized.py) and `BackupHandler`
  (llm_handler_backup.py): each variant's prompt construction and its request
  payload.
- `ChatApp` (app.py): the session state that survives reruns. It covers its
  initialisation, the chat input rule, the question-answer exchange, uploads
  and clearing.
- `ApiServer` (api_server.py): start-up, `/health`, `/chat`,
  `/upload-documents`, `DELETE /documents`, `/documents/stats` and `/models`.
  Each handler is written as a call that ends either with its response or with
  the `HTTPException` it raises.
- `ModelTraining` (model_trainer.py): the `ModelTrainer` class and the
  Modelfile it renders.
- Shared by the modules above: `Config` (the constants of config.py),
  `ContextDocs` (a retrieved document read with defaults), `Text` (Python's
  `str.strip`, `split(":")[0]`, `str(int)`, substring facts) and `Paths`
  (`os.path.basename`, `os.path.join`, `Path.suffix`).

The model proves one consequence of the configuration. The configured model
name `llama3.1:8b` holds a colon. The handlers compare it against the server's
model names cut at their first colon. So `_check_ollama_connection` never
succeeds for it, whatever the server lists, and `test_connection` never gets
as far as its probe (`OptimizedHandler.ConfiguredModelNeverConnects`).

## Model

| member | source | states |
|---|---|---|
| Text.Strip | llm_handler_optimized.py:90 | `str.strip()`: the result has no whitespace at either end, and only whitespace was removed around it |
| Text.StripIdempotent | llm_handler_optimized.py:90 | stripping twice gives the same text as stripping once |
| Text.BeforeColon | llm_handler_optimized.py:26 | `split(":")[0]` is a colon-free prefix of the name, ending just before its first colon if it has one |
| Text.NatToString | llm_handler_optimized.py:100 | `str(n)` is a non-empty string of decimal digits with no leading zero |
| Text.NatToStringRoundTrip | llm_handler_optimized.py:100 | the decimal text of `n` reads back as `n` |
| Paths.Basename | document_processor.py:129 | `os.path.basename` is a slash-free suffix of the path |
| Paths.BasenameFollowsSlash | document_processor.py:129 | when the basename is shorter than the path, it follows the path's last slash |
| Paths.BasenameOfLast | document_processor.py:129 | the basename of a directory ending in `/` followed by a slash-free name is that name |
| Paths.LastIndexOf | document_processor.py:87 | the last position holding the character, or -1; no later position holds it |
| Paths.SuffixOfFileName | document_processor.py:87 | `Path(dir/stem.ext).suffix` is exactly `.ext` for a non-empty stem and a dot-free extension |
| Paths.HiddenFileHasNoSuffix | document_processor.py:87 | a name whose only dot is its first character has no suffix |
| Paths.LowerChar | document_processor.py:87 | an ASCII capital becomes its lower-case letter (32 code points on), and every other character is kept |
| Paths.Lower | document_processor.py:87 | `s.lower()` keeps the length and lowers each character on its own, in place |
| Paths.Join | app.py:206 | `os.path.join(dir, name)` ends with `name`; an absolute name replaces the directory; a relative name is placed under the directory, with exactly one `/` added when the directory does not end with one |
| Paths.JoinedName | api_server.py:217 | a slash-free file name is the basename of the path it is joined to, so the file is saved in the directory under its own name |
| Paths.JoinAll | api_server.py:217 | one joined path per name, in order, each ending with its name |
| ContextDocs.Sources | app.py:390-395 | the set of sources holds each document's source or "Unknown", nothing else, and is no larger than the list |
| ContextDocs.UnknownSource | app.py:392-395 | "Unknown" is a source exactly when some document has no source or names "Unknown" |
| DocumentProcessing.DispatchByExtension | document_processor.py:85-97 | a file goes to the PDF, DOCX or TXT reader its lower-cased extension names, case-insensitively and in any directory; other extensions give "" |
| DocumentProcessing.NoExtensionNoText | document_processor.py:85-97 | a name without a suffix (no dot, or only a leading dot) yields no text |
| DocumentProcessing.Preview | document_processor.py:161 | the `chunk_text` preview is the chunk itself up to 200 characters, otherwise its first 200 characters followed by "...", so never longer than 203 |
| DocumentProcessing.Outcome | document_processor.py:108-143 | a file counts as stored only when its text and its chunk list are both non-empty |
| DocumentProcessing.Reports | document_processor.py:108 | one report per file of the batch |
| DocumentProcessing.TallyAccounting | document_processor.py:99-145 | every file counts once, as processed or as failed, and each failure leaves exactly one error message |
| DocumentProcessing.WrittenMatchesTotal | document_processor.py:125-137 | `total_chunks` equals the number of records written, and their ids run on consecutively from the first fresh id |
| DocumentProcessing.TallyMatchesReference | document_processor.py:108-143 | the running counts equal independent counts: stored files, the sum of their chunk counts, and the failures' messages in file order |
| DocumentProcessing.ReferenceCountsAppend | document_processor.py:108-143 | the reference counts of two concatenated batches add up |
| DocumentProcessing.BadFileDoesNotAbort | document_processor.py:108-143 | a failing file adds no chunks and no success; the files before and after it are counted as if it were absent, and its error sits between theirs |
| DocumentProcessing.MaxIdPlusOne | document_processor.py:154 | a number above every id already stored, so fresh ids never collide |
| DocumentProcessing.InRange | document_processor.py:187-192 | the store's order keeps only positions of records that exist |
| DocumentProcessing.StoreHits | document_processor.py:187-192 | the store answers at most `k` hits (none for `k <= 0`), each a stored text with its metadata |
| DocumentProcessing.Ranked | document_processor.py:194-206 | each hit becomes a result with similarity `1 - distance` and rank `i + 1`, in store order |
| DocumentProcessing.SearchResults | document_processor.py:177-212 | a failing query gives `[]`; otherwise at most `k` results, ranked 1, 2, … and each held in the collection |
| DocumentProcessing.EmptyCollectionFindsNothing | document_processor.py:177-212 | on an empty collection the store answers no hits and the search result list is empty, whatever the query and `k` |
| DocumentProcessing.AsContextDoc | app.py:393 | a result read as a context document keeps its content, source and similarity |
| DocumentProcessing.AsContextDocs | app.py:378-385 | the results read as context documents, one for one and in order |
| DocumentProcessing.DocumentProcessor.constructor | document_processor.py:23-49 | opens the persistent collection as it is, with a fresh-id counter above every stored id |
| DocumentProcessing.DocumentProcessor.StoreChunks | document_processor.py:147-175 | one record per chunk with a fresh id, chunk index and preview; the store's error is re-raised and leaves the collection unchanged |
| DocumentProcessing.DocumentProcessor.ProcessFile | document_processor.py:108-143 | one file of the batch: its outcome, and its chunk records appended only when it is stored |
| DocumentProcessing.DocumentProcessor.ProcessDocuments | document_processor.py:99-145 | the results are the tally of the per-file outcomes, and the collection grows by exactly the records of the stored files, in order |
| DocumentProcessing.DocumentProcessor.SearchSimilarDocuments | document_processor.py:177-212 | the returned list is the search-result specification for `k`, or `RETRIEVAL_K` when `k` is absent |
| DocumentProcessing.DocumentProcessor.GetCollectionStats | document_processor.py:214-225 | the chunk count is the collection's size, or 0 with the error when counting fails; name and embedding model come from the configuration |
| DocumentProcessing.DocumentProcessor.ClearCollection | document_processor.py:227-239 | the collection ends empty unless deleting raises; an error is reported exactly when one is raised |
| Ollama.ContextCount | llm_handler_optimized.py:92 | `len(context_docs) if context_docs else 0` |
| Ollama.MapGenerate | llm_handler_optimized.py:81-117 | success exactly on a 200 whose body decodes, with the stripped answer, the model, the context count, and `prompt_eval_count` and `eval_count` copied (0 when missing); otherwise the HTTP, timeout or unexpected-error apology |
| Ollama.ApologyIdentifiesFailure | llm_handler_optimized.py:96-117 | the apology text tells the three failure kinds apart |
| Ollama.HttpErrorNamesStatus | llm_handler_optimized.py:96-102 | the status code can be read back from the error of a non-200 reply |
| Ollama.Names | llm_handler_optimized.py:142-145 | one name per model entry, in order |
| Ollama.ShortNames | llm_handler_optimized.py:26 | each short name is a colon-free prefix of its full name |
| Ollama.ModelLoadedMeaning | llm_handler_optimized.py:26-27 | a colon-free model counts as loaded exactly when the server lists it by that name or as some `model:tag` |
| Ollama.ColonNameNeverLoaded | llm_handler_optimized.py:26-27 | a model name holding a colon never counts as loaded |
| Ollama.CheckConnection | llm_handler_optimized.py:20-39 | true exactly on a 200 listing the model by short name; an entry without a name escapes as `KeyError`; every other outcome gives false |
| Ollama.CheckModelAvailability | llm_handler_optimized.py:137-162 | available exactly on a 200 whose entries all have names, with the full names and whether the model is among the short names; otherwise the error text |
| Ollama.ConnectionAgreesWithAvailability | llm_handler_optimized.py:20-39 | the connection check succeeds exactly when the availability report is positive and says the model is loaded |
| Ollama.ColonModelNeverConnects | llm_handler_optimized.py:137-162 | for a model name with a colon neither check ever reports it loaded |
| Ollama.TestConnection | llm_handler_optimized.py:180-212 | no probe when the check is false; a probe report whose success and message follow the reply when it is true; a failed report quoting the exception otherwise |
| OptimizedHandler.Entries | llm_handler_optimized.py:131-133 | one numbered entry per document, numbered from 1 |
| OptimizedHandler.Shown | llm_handler_optimized.py:131 | `context_docs[:3]`: at most three documents, the first ones, and all of them when there are at most three |
| OptimizedHandler.BuildContextPrompt | llm_handler_optimized.py:119-135 | the returned prompt is the general or grounded prompt for the documents |
| OptimizedHandler.BuildContextText | llm_handler_optimized.py:130-133 | the loop builds the numbered, truncated context text of the first three documents |
| OptimizedHandler.GeneralPromptShape | llm_handler_optimized.py:122-124 | without documents the prompt is the fixed preamble, the question and the answer cue |
| OptimizedHandler.GroundedPromptShape | llm_handler_optimized.py:126-135 | with documents the prompt opens with the system line and the context header, and ends with the question and the answer cue |
| OptimizedHandler.OnlyFirstThreeCount | llm_handler_optimized.py:131 | documents after the third never change the prompt |
| OptimizedHandler.ShownDocumentInContext | llm_handler_optimized.py:131-133 | each of the first three documents appears, numbered and truncated, in the context |
| OptimizedHandler.ShownDocumentsAppear | llm_handler_optimized.py:126-135 | each of the first three documents appears in the prompt |
| OptimizedHandler.EntryBound | llm_handler_optimized.py:133 | an entry is at most 504 characters, since content is cut at 500 |
| OptimizedHandler.GroundedPromptBound | llm_handler_optimized.py:126-135 | however long the documents are, the grounded prompt exceeds the question by a fixed bound |
| OptimizedHandler.GenerateResponse | llm_handler_optimized.py:41-117 | one non-streaming request with the built prompt and a 30-second timeout; its outcome mapped to the result record |
| OptimizedHandler.PayloadCarriesPrompt | llm_handler_optimized.py:54-77 | the payload carries the built prompt, the configured model and streaming off |
| OptimizedHandler.TestConnection | llm_handler_optimized.py:180-212 | probes with "Hello" and no documents only after a successful connection check |
| OptimizedHandler.ConfiguredModelNeverConnects | llm_handler_optimized.py:20-39 | with the configured `llama3.1:8b` the connection check never succeeds, so `test_connection` never probes and the model never counts as loaded |
| BackupHandler.Entries | llm_handler_backup.py:135-143 | one document block per document, numbered from 1 |
| BackupHandler.BuildContextPrompt | llm_handler_backup.py:106-153 | the returned prompt is the conversational or grounded template for the documents |
| BackupHandler.BuildContextText | llm_handler_backup.py:135-143 | the loop builds the start marker, one block per document and the end marker |
| BackupHandler.ContextStep | llm_handler_backup.py:135-143 | one loop turn appends the current document's block to the context so far |
| BackupHandler.ContextDone | llm_handler_backup.py:143 | the end marker completes the context text |
| BackupHandler.GeneralPromptShape | llm_handler_backup.py:109-115 | without documents the prompt is the conversational system line, the question and the answer cue |
| BackupHandler.GeneralPromptHasNoMarker | llm_handler_backup.py:109-115 | when the system line has no dash, a document marker occurs in the conversational prompt exactly when it occurs in the question: the template adds none |
| BackupHandler.BackupGeneralPromptHasNoMarker | llm_handler_backup.py:109-115 | with the handler's own system line, a general-chat prompt holds a document marker only when the user typed it |
| BackupHandler.ContextTextFramed | llm_handler_backup.py:135-143 | the context text opens with the start marker and ends with the end marker |
| BackupHandler.GroundedPromptShape | llm_handler_backup.py:118-153 | with documents the prompt is the system text, the framed context, the question and the closing instructions, in that order |
| BackupHandler.EveryDocumentInContext | llm_handler_backup.py:135-143 | every document's block, with its number, source and relevance, is part of the context |
| BackupHandler.EntryHoldsContent | llm_handler_backup.py:139-141 | a document's block holds its whole content |
| BackupHandler.EveryContentInPrompt | llm_handler_backup.py:106-153 | every document's whole content reaches the prompt, with no truncation and no limit on the number of documents |
| BackupHandler.GenerateResponse | llm_handler_backup.py:40-104 | one non-streaming request with the built prompt and a 60-second timeout; its outcome mapped to the result record |
| BackupHandler.PayloadCarriesPrompt | llm_handler_backup.py:53-64 | the payload carries the built prompt, the configured model, streaming off and the five options |
| BackupHandler.TestConnection | llm_handler_backup.py:198-230 | probes with the fixed greeting only after a successful connection check |
| ChatApp.SessionState.constructor | app.py:67-79 | a fresh browser session has none of the four keys set |
| ChatApp.ChatbotApp.constructor | app.py:61-65 | the app initialises the session state and keeps the processor and handler it was given |
| ChatApp.ChatbotApp.InitializeSessionState | app.py:67-79 | each key gets its default only when absent, so a rerun keeps the history, the flags and the mode |
| ChatApp.ContextFor | app.py:384 | the handler gets the retrieved list exactly in Document Chat, and `None` otherwise |
| ChatApp.Metadata | app.py:390-405 | success, model and token counts follow the reply; context count and sources are those of the retrieved documents in Document Chat and empty otherwise |
| ChatApp.InputFor | app.py:306-318 | the input is disabled exactly in Document Chat before processing, or without a handler, with the matching placeholder |
| ChatApp.SaveUploads | app.py:205-209 | each upload is saved under the temporary directory by its name, in order |
| ChatApp.ChatbotApp.Relevant | app.py:374-381 | documents are searched only in Document Chat once documents are processed; at most `RETRIEVAL_K` of them |
| ChatApp.ChatbotApp.Exchange | app.py:362-413 | a question adds the user's turn, then an assistant turn exactly when the handler returns; a raised handler leaves only the user's turn |
| ChatApp.ChatbotApp.RetrievedFromCollection | app.py:374-381 | every retrieved document is a chunk the collection holds |
| ChatApp.ChatbotApp.SourcesAreStoredFiles | app.py:390-395 | the sources shown with an answer name only files that have chunks in the collection |
| ChatApp.ChatbotApp.NoDocumentsMeansNoContext | app.py:376-385 | before documents are processed, Document Chat hands the handler an empty list |
| ChatApp.ChatbotApp.Retrieve | app.py:374-381 | the documents fetched are the relevant ones for the question and mode |
| ChatApp.ChatbotApp.HandleUserInput | app.py:355-419 | the history grows by exactly the exchange for the question, and nothing else changes |
| ChatApp.ChatbotApp.RenderChatInterface | app.py:275-321 | the mode is recorded, the input rule is applied, and typed text is handled only when the input is enabled |
| ChatApp.ChatbotApp.ProcessUploadedFiles | app.py:194-236 | without a processor nothing changes; otherwise the batch's results are kept, documents are marked processed and the collection grows by the batch's records |
| ChatApp.ChatbotApp.ClearDocuments | app.py:259-273 | a successful clear empties the collection and resets both flags; a failure keeps the flags; the collection survives a failed delete and is empty after a failed re-creation |
| ApiServer.ExceptionText | api_server.py:194-196 | `str(HTTPException)` is the status code, ": " and the detail |
| ApiServer.ConversationId | api_server.py:134 | a non-empty requested id is kept; otherwise `conv_` followed by digits that read back as the start time |
| ApiServer.Metadata | api_server.py:178-184 | success, model and tokens follow the reply; the context count and sources are those of the retrieved documents |
| ApiServer.Rejection | api_server.py:210-215 | a file passes exactly when its size is known and at most 10 MB; a larger one is refused with the 413 text naming it |
| ApiServer.FirstRejection | api_server.py:209-218 | no rejection exactly when every file passes; otherwise it is the rejection of the first file that fails |
| ApiServer.Filenames | api_server.py:217 | the uploaded files' names, in order |
| ApiServer.SaveFiles | api_server.py:209-218 | the saving loop stops at the first rejected file; when none is rejected, each file is saved under the temporary directory by its name |
| ApiServer.UploadReply | api_server.py:231-238 | success exactly when some file was processed, with the batch counts and errors copied and the count in the message |
| ApiServer.Api.constructor | api_server.py:36-39 | neither service exists before start-up |
| ApiServer.Api.Startup | api_server.py:70-85 | the processor is built first; if it fails the handler is not built; a failing handler keeps the processor |
| ApiServer.Api.HealthCheck | api_server.py:97-125 | "healthy" exactly when both services report available; a raised availability check leaves the processor unreported; the document count falls back to 0 |
| ApiServer.Api.Retrieved | api_server.py:143-148 | document mode hands the handler at most `RETRIEVAL_K` search results |
| ApiServer.Api.ChatEndpoint | api_server.py:127-196 | 503 without a handler; a missing processor in document mode or a raised handler becomes a 500; otherwise the reply with mode, timing, conversation id and at most `RETRIEVAL_K` documents used |
| ApiServer.Api.SourcesAreStoredFiles | api_server.py:160-163 | the sources of a document-mode answer name only files that have chunks in the collection |
| ApiServer.Api.HealthyServesDocuments | api_server.py:97-196 | a server that reports itself healthy has both services, and answers a document-mode request whenever its handler returns |
| ApiServer.Api.UploadDocuments | api_server.py:198-242 | 503 without a processor; a rejected file becomes a 500 and nothing is stored; otherwise the batch's results, with the collection grown by its records |
| ApiServer.Api.ClearDocuments | api_server.py:244-257 | 503 without a processor; a raised clear becomes a 500 quoting it; otherwise the collection is emptied |
| ApiServer.Api.DocumentStats | api_server.py:259-271 | 503 exactly without a processor; otherwise the collection statistics |
| ApiServer.Api.AvailableModels | api_server.py:273-285 | 503 without a handler; the handler's availability report, or a 500 quoting what it raised |
| ModelTraining.Field | model_trainer.py:31-32 | `item.get(key, "")` |
| ModelTraining.ExamplesOf | model_trainer.py:29-33 | one example per decoded item, in order, with "" for a missing key |
| ModelTraining.SystemPrompt | model_trainer.py:38-41 | the given system prompt, or the default text when none is given |
| ModelTraining.FewShot | model_trainer.py:64 | the first five examples, or all of them when there are fewer |
| ModelTraining.Blocks | model_trainer.py:64-68 | one message block per example, in order |
| ModelTraining.ModelfileStartsFrom | model_trainer.py:43 | the Modelfile begins with the `FROM` line naming the base model |
| ModelTraining.ModelfileHoldsSystem | model_trainer.py:57-58 | the system prompt appears between triple quotes on the `SYSTEM` line |
| ModelTraining.ModelfileExampleAt | model_trainer.py:64-68 | each shown example's block sits right after the header and the blocks before it, so examples keep their order |
| ModelTraining.BlockHoldsLines | model_trainer.py:65-68 | a block holds the example's `MESSAGE user` and `MESSAGE assistant` lines |
| ModelTraining.LoadedItemsRendered | model_trainer.py:25-68 | each of the first five loaded items appears in the Modelfile as its user line and assistant line |
| ModelTraining.ModelTrainer.constructor | model_trainer.py:14-16 | a trainer starts on its base model with no examples |
| ModelTraining.ModelTrainer.Default | model_trainer.py:14-16 | the default base model is `llama3.1:8b` |
| ModelTraining.ModelTrainer.AddTrainingExample | model_trainer.py:18-23 | one example is appended and the earlier ones stay |
| ModelTraining.ModelTrainer.LoadTrainingData | model_trainer.py:25-33 | the decoded items' examples are appended in order |
| ModelTraining.ModelTrainer.CreateModelfile | model_trainer.py:35-80 | returns the file name `Modelfile-<name>` and the rendered Modelfile; the examples are only read |

## Left out

- Text extraction (PyPDF2, python-docx, file reading), the text splitter, embeddings and the Chroma client are collaborators. They appear as the function fields of `DocumentProcessing.Backends`, and their internals are not modelled.
- The store's similarity ordering is not modelled. `StoreHits` returns stored records in an order the store chooses, and distances are a collaborator.
- HTTP transport, FastAPI routing, CORS, `async` and the thread pool are not modelled. Each endpoint is a synchronous call. The root endpoint `/` returns fixed text and has no logic.
- Streamlit rendering is left out: `render_header`, `render_sidebar`, `show_system_status`, `show_database_stats`, `display_message` and the size display of `handle_file_upload`. `st.rerun()`, spinners and messages are not modelled either.
- Clocks, `uuid4`, `datetime.now()` and timing are parameters. Record ids come from a counter that yields fresh values instead of UUIDs. Per-file timestamps come from `stamp`, and elapsed times are given.
- Floating point formatting (`:.2f`) is the `format` parameter of `BackupHandler`. Similarities are `real`.
- The `llm_handler` module that the front ends import is not part of this model. Its handler is the abstract `Ollama.Generator`.
- The connection check in `OfflineLLM.__init__` only logs a warning, so it is not modelled. `get_model_info` only combines the availability report with constants, so it is left out.
- BackupHandler: the prompt texts are a `Templates` value, and `BACKUP` holds the source's text. This keeps the long literals out of the proofs. The conversational system line is written as seven concatenated pieces; their concatenation is the source's text.
- llm_handler_backup.py:40 indents the `def` of `generate_response` by six spaces, which matches no enclosing level. As written, the file fails to parse with an `IndentationError` and cannot be imported. The model follows the evident intent: `generate_response` is a method of `OfflineLLM`.
- The exception branches of `process_uploaded_files` (app.py:228-236) and of the processing step of `upload_documents` are not modelled. `process_documents` catches every per-file error, so they cannot be reached from the modelled code.
- Writing the uploaded bytes and the Modelfile to disk, reading and parsing the JSON training file (and its errors), and console messages are I/O and are not modelled. The decoded items are a parameter, and their values are assumed to be strings.
- ChatApp.Metadata: the `sources` list is a set, because `list(set(...))` has no defined order. The same holds for `ApiServer.Metadata`.
- Paths.Lower: lower-cases ASCII letters only. Python's Unicode case mapping is not modelled.
- An upload whose file name is `None` is not modelled. File names are strings.
- `SIMILARITY_THRESHOLD` (config.py:22) is never read by the code, so it is not part of the model. deploy.py is a setup script and is not modelled.
