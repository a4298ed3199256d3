/** The HTTP back end (api_server.py): the two services built at start-up, and the
    decision logic of its endpoints. Routing, CORS and the thread pool are left to
    the framework; each handler is modelled as a synchronous call whose outcome is
    either the response body or the `HTTPException` it ends with. */
module ApiServer {
  import opened Wrappers
  import opened Text
  import opened ContextDocs
  import Paths
  import Config
  import Ollama
  import DocumentProcessing

  /** An `HTTPException`: its status code and `detail`. */
  datatype HttpError = HttpError(status: nat, detail: string)

  /** `str()` of an `HTTPException` caught by a generic handler: "<status>: <detail>". */
  function ExceptionText(e: HttpError): (s: string)
    ensures |s| == |NatToString(e.status)| + 2 + |e.detail|
    ensures IsPrefix(NatToString(e.status), s) && IsSuffix(e.detail, s)
    ensures s[|NatToString(e.status)|..|NatToString(e.status)| + 2] == ": "
  {
    var s := NatToString(e.status) + ": " + e.detail;
    assert s[|NatToString(e.status)|..|NatToString(e.status)| + 2] == ": ";
    s
  }

  const LLM_UNAVAILABLE := "LLM service not available"
  const PROCESSOR_UNAVAILABLE := "Document processor not available"
  const CHAT_FAILED := "Chat processing failed: "
  const UPLOAD_FAILED := "Document processing failed: "
  const CLEAR_FAILED := "Failed to clear documents: "
  const MODELS_FAILED := "Failed to get model info: "
  /** The only mode string that searches the documents. */
  const DOCUMENT_MODE := "document"

  datatype HealthResponse = HealthResponse(
    status: string,
    ollamaAvailable: bool,
    processorAvailable: bool,
    totalDocuments: nat,
    message: string)

  datatype ChatRequest = ChatRequest(message: string, mode: string, conversationId: Option<string>)

  /** The `metadata` dictionary of a chat response; `sources` is built through a set,
      so its order carries no meaning. */
  datatype ChatMetadata = ChatMetadata(
    model: string,
    contextUsed: nat,
    responseTokens: int,
    sources: set<string>,
    success: bool)

  datatype ChatResponse = ChatResponse(
    response: string,
    mode: string,
    processingTime: real,
    conversationId: string,
    metadata: ChatMetadata)

  /** An uploaded file: its name and its size in bytes, which the framework may not
      know (`None`). */
  datatype Upload = Upload(filename: string, size: Option<nat>)

  datatype UploadResponse = UploadResponse(
    success: bool,
    message: string,
    processed: nat,
    failed: nat,
    totalChunks: nat,
    errors: seq<string>)

  /** `request.conversation_id or f"conv_{int(start_time.timestamp())}"`: a non-empty
      requested id is kept; otherwise the id names the request's start time, in whole
      seconds since the epoch, which can be read back from it. */
  function ConversationId(requested: Option<string>, epoch: nat): (id: string)
    ensures id != []
    ensures requested.Some? && requested.value != [] ==> id == requested.value
    ensures requested.None? || requested.value == [] ==>
      (IsPrefix("conv_", id) && AllDigits(id[5..]) && ParseDigits(id[5..]) == epoch)
  {
    if requested.Some? && requested.value != [] then requested.value
    else
      var digits := NatToString(epoch);
      var id := "conv_" + digits;
      assert id[5..] == digits;
      NatToStringRoundTrip(epoch);
      id
  }

  /** The metadata of a chat reply: `model` and `response_tokens` fall back to
      "Unknown" and 0 when the handler's reply is an apology. */
  function Metadata(reply: Ollama.Reply, relevant: seq<ContextDoc>, sources: set<string>): (m: ChatMetadata)
    ensures m.success <==> reply.Answered?
    ensures m.model == if reply.Answered? then reply.model else "Unknown"
    ensures m.responseTokens == if reply.Answered? then reply.responseTokens else 0
    ensures m.contextUsed == |relevant| && m.sources == sources
  {
    ChatMetadata(
      if reply.Answered? then reply.model else "Unknown",
      |relevant|,
      if reply.Answered? then reply.responseTokens else 0,
      sources,
      reply.Answered?)
  }

  const MAX_UPLOAD_BYTES := Config.MAX_FILE_SIZE_MB * 1024 * 1024

  /** What comparing `None > int` raises, as `str()` shows it. */
  const SIZE_UNKNOWN := "'>' not supported between instances of 'NoneType' and 'int'"

  /** The exception text a file's size check ends the upload with, if any: a 413
      for a file over the limit, a type error for a file of unknown size. */
  function Rejection(f: Upload): (e: Option<string>)
    ensures e.None? <==> f.size.Some? && f.size.value <= MAX_UPLOAD_BYTES
    ensures f.size.Some? && f.size.value > MAX_UPLOAD_BYTES ==>
      e == Some(ExceptionText(HttpError(413, "File " + f.filename + " too large (max " + NatToString(Config.MAX_FILE_SIZE_MB) + "MB)")))
  {
    match f.size
    case None => Some(SIZE_UNKNOWN)
    case Some(n) =>
      if n > MAX_UPLOAD_BYTES then
        Some(ExceptionText(HttpError(413, "File " + f.filename + " too large (max " + NatToString(Config.MAX_FILE_SIZE_MB) + "MB)")))
      else None
  }

  /** The first rejection met by the saving loop, which stops there. */
  function FirstRejection(files: seq<Upload>): (e: Option<string>)
    ensures e.None? <==> forall i :: 0 <= i < |files| ==> Rejection(files[i]).None?
    ensures e.Some? ==>
      exists i :: 0 <= i < |files| && Rejection(files[i]) == e && forall j :: 0 <= j < i ==> Rejection(files[j]).None?
  {
    if files == [] then None
    else if Rejection(files[0]).Some? then Rejection(files[0])
    else
      var rest := FirstRejection(files[1..]);
      assert forall i :: 1 <= i < |files| ==> files[1..][i - 1] == files[i];
      if rest.Some? then
        var i :| 0 <= i < |files[1..]| && Rejection(files[1..][i]) == rest
          && forall j :: 0 <= j < i ==> Rejection(files[1..][j]).None?;
        assert Rejection(files[i + 1]) == rest;
        rest
      else rest
  }

  function Filenames(files: seq<Upload>): (names: seq<string>)
    ensures |names| == |files|
    ensures forall i :: 0 <= i < |files| ==> names[i] == files[i].filename
  {
    seq(|files|, i requires 0 <= i < |files| => files[i].filename)
  }

  lemma FirstRejectionStep(files: seq<Upload>, i: nat)
    requires i < |files|
    ensures FirstRejection(files[i..]) ==
      if Rejection(files[i]).Some? then Rejection(files[i]) else FirstRejection(files[i + 1..])
  {
    assert files[i..][0] == files[i];
    assert files[i..][1..] == files[i + 1..];
  }

  lemma SavedStep(tempDir: string, files: seq<Upload>, i: nat)
    requires i < |files|
    ensures Paths.JoinAll(tempDir, Filenames(files[..i + 1]))
      == Paths.JoinAll(tempDir, Filenames(files[..i])) + [Paths.Join(tempDir, files[i].filename)]
  {
  }

  /** The saving loop of `upload_documents`: each file's size is checked before its
      path is recorded, and the first rejected file ends the loop. Writing the bytes
      is not modelled. */
  method SaveFiles(tempDir: string, files: seq<Upload>) returns (paths: seq<string>, rejected: Option<string>)
    ensures rejected == FirstRejection(files)
    ensures rejected.None? ==> paths == Paths.JoinAll(tempDir, Filenames(files))
  {
    paths := [];
    var i := 0;
    while i < |files|
      invariant 0 <= i <= |files|
      invariant FirstRejection(files[i..]) == FirstRejection(files)
      invariant paths == Paths.JoinAll(tempDir, Filenames(files[..i]))
    {
      FirstRejectionStep(files, i);
      SavedStep(tempDir, files, i);
      var e := Rejection(files[i]);
      if e.Some? {
        return paths, e;
      }
      paths := paths + [Paths.Join(tempDir, files[i].filename)];
      i := i + 1;
    }
    assert files[..|files|] == files;
    rejected := None;
  }

  /** The response to a processed batch: a success exactly when some file was
      processed, with the batch's counts and errors copied unchanged. */
  function UploadReply(results: DocumentProcessing.BatchResults): (u: UploadResponse)
    ensures u.success <==> results.processed > 0
    ensures u.processed == results.processed && u.failed == results.failed
    ensures u.totalChunks == results.totalChunks && u.errors == results.errors
    ensures u.message == "Processed " + NatToString(results.processed) + " documents successfully"
  {
    UploadResponse(
      results.processed > 0,
      "Processed " + NatToString(results.processed) + " documents successfully",
      results.processed,
      results.failed,
      results.totalChunks,
      results.errors)
  }

  /** The process's globals `doc_processor` and `llm_handler`. */
  class Api {
    var processor: DocumentProcessing.DocumentProcessor?
    var llm: Option<Ollama.Generator>

    ghost predicate Valid()
      reads this, processor
    {
      processor != null ==> processor.Valid()
    }

    /** Module load: neither service exists yet. */
    constructor ()
      ensures Valid() && processor == null && llm.None?
    {
      processor := null;
      llm := None;
    }

    /** `startup_event`: the processor is built first, then the handler. When the
        processor cannot be built the handler is not attempted; when only the handler
        fails the processor is kept. Either failure is only logged. */
    method Startup(built: Result<DocumentProcessing.DocumentProcessor, string>, handler: Result<Ollama.Generator, string>)
      requires Valid()
      requires built.Success? ==> built.value.Valid()
      modifies this
      ensures Valid()
      ensures built.Failure? ==> processor == old(processor) && llm == old(llm)
      ensures built.Success? ==> processor == built.value
      ensures built.Success? ==> llm == if handler.Success? then Some(handler.value) else old(llm)
    {
      if built.Failure? {
        return;
      }
      processor := built.value;
      if handler.Success? {
        llm := Some(handler.value);
      }
    }

    /** `health_check`. `modelStatus` is what `check_model_availability` returned or
        raised; `countFault` whether counting the collection raised. A raise from the
        availability check skips the processor check too, so the processor is then
        reported missing. The status is "healthy" exactly when both are reported
        available. */
    function HealthCheck(modelStatus: Result<Ollama.Availability, string>, countFault: Option<string>): (r: HealthResponse)
      reads this, processor
      ensures r.ollamaAvailable <==> llm.Some? && modelStatus.Success? && modelStatus.value.Available?
      ensures r.processorAvailable <==> processor != null && !(llm.Some? && modelStatus.Failure?)
      ensures r.status == (if r.ollamaAvailable && r.processorAvailable then "healthy" else "degraded")
      ensures r.totalDocuments == if r.processorAvailable && countFault.None? then |processor.collection| else 0
      ensures r.message == "API is running"
    {
      var raised := llm.Some? && modelStatus.Failure?;
      var ollama := llm.Some? && modelStatus.Success? && modelStatus.value.Available?;
      var available := processor != null && !raised;
      var total := if available then processor.GetCollectionStats(countFault).totalChunks else 0;
      HealthResponse(if ollama && available then "healthy" else "degraded", ollama, available, total, "API is running")
    }

    /** The search results handed to the handler in document mode, as it reads them. */
    function Retrieved(query: string): (docs: seq<ContextDoc>)
      requires processor != null
      reads this, processor
      ensures |docs| <= Config.RETRIEVAL_K
    {
      DocumentProcessing.AsContextDocs(
        DocumentProcessing.SearchResults(processor.backends, query, Config.RETRIEVAL_K, processor.collection))
    }

    /** `chat_endpoint`. `epoch` is the start time in whole seconds and `elapsed` the
        measured processing time. Only mode "document" searches; any other mode is
        general chat. A missing handler is a 503; every later failure, including the
        503 for a missing processor, is caught and answered with a 500. */
    function ChatEndpoint(request: ChatRequest, epoch: nat, elapsed: real): (r: Result<ChatResponse, HttpError>)
      reads this, processor
      ensures llm.None? ==> r == Failure(HttpError(503, LLM_UNAVAILABLE))
      ensures r.Failure? ==> (r.error.status == 503 <==> llm.None?) && (r.error.status == 500 <==> llm.Some?)
      ensures llm.Some? && request.mode == DOCUMENT_MODE && processor == null ==>
        r == Failure(HttpError(500, CHAT_FAILED + ExceptionText(HttpError(503, PROCESSOR_UNAVAILABLE))))
      ensures llm.Some? && request.mode != DOCUMENT_MODE ==>
        match llm.value(request.message, None)
        case Failure(e) => r == Failure(HttpError(500, CHAT_FAILED + e))
        case Success(reply) =>
          r.Success? && r.value.response == reply.response
          && r.value.metadata == Metadata(reply, [], {})
      ensures llm.Some? && request.mode == DOCUMENT_MODE && processor != null ==>
        match llm.value(request.message, Some(Retrieved(request.message)))
        case Failure(e) => r == Failure(HttpError(500, CHAT_FAILED + e))
        case Success(reply) =>
          r.Success? && r.value.response == reply.response
          && r.value.metadata == Metadata(reply, Retrieved(request.message), Sources(Retrieved(request.message)))
      ensures r.Success? ==>
        r.value.mode == request.mode && r.value.processingTime == elapsed
        && r.value.conversationId == ConversationId(request.conversationId, epoch)
        && r.value.metadata.contextUsed <= Config.RETRIEVAL_K
    {
      if llm.None? then Failure(HttpError(503, LLM_UNAVAILABLE))
      else if request.mode == DOCUMENT_MODE && processor == null then
        Failure(HttpError(500, CHAT_FAILED + ExceptionText(HttpError(503, PROCESSOR_UNAVAILABLE))))
      else
        var relevant := if request.mode == DOCUMENT_MODE then Retrieved(request.message) else [];
        var sources := if request.mode == DOCUMENT_MODE then Sources(relevant) else {};
        var context := if request.mode == DOCUMENT_MODE then Some(relevant) else None;
        match llm.value(request.message, context)
        case Failure(e) => Failure(HttpError(500, CHAT_FAILED + e))
        case Success(reply) =>
          Success(ChatResponse(reply.response, request.mode, elapsed,
                               ConversationId(request.conversationId, epoch), Metadata(reply, relevant, sources)))
    }

    /** The sources listed with a document-mode answer name only files that have
        chunks in the collection. */
    lemma SourcesAreStoredFiles(request: ChatRequest, epoch: nat, elapsed: real)
      requires ChatEndpoint(request, epoch, elapsed).Success?
      ensures var sources := ChatEndpoint(request, epoch, elapsed).value.metadata.sources;
        forall s :: s in sources ==>
          (processor != null
           && exists p :: 0 <= p < |processor.collection| && processor.collection[p].metadata.base.Source() == s)
    {
      var sources := ChatEndpoint(request, epoch, elapsed).value.metadata.sources;
      if request.mode == DOCUMENT_MODE {
        var results := DocumentProcessing.SearchResults(processor.backends, request.message, Config.RETRIEVAL_K, processor.collection);
        var relevant := Retrieved(request.message);
        forall s | s in sources
          ensures exists p :: 0 <= p < |processor.collection| && processor.collection[p].metadata.base.Source() == s
        {
          var k :| 0 <= k < |relevant| && SourceOf(relevant[k]) == s;
          assert relevant[k] == DocumentProcessing.AsContextDoc(results[k]);
          assert DocumentProcessing.HeldIn(processor.collection, results[k].content, results[k].metadata);
          var p :| 0 <= p < |processor.collection| && processor.collection[p].document == results[k].content
            && processor.collection[p].metadata == results[k].metadata;
        }
      }
    }

    /** A server that reports itself healthy answers a document-mode request without
        the "not available" errors: it fails only if the handler itself raises. */
    lemma HealthyServesDocuments(modelStatus: Result<Ollama.Availability, string>, countFault: Option<string>,
                                 request: ChatRequest, epoch: nat, elapsed: real)
      requires HealthCheck(modelStatus, countFault).status == "healthy"
      requires request.mode == DOCUMENT_MODE
      ensures llm.Some? && processor != null
      ensures ChatEndpoint(request, epoch, elapsed).Success?
        <==> llm.value(request.message, Some(Retrieved(request.message))).Success?
    {
      var h := HealthCheck(modelStatus, countFault);
      assert h.ollamaAvailable && h.processorAvailable;
    }

    /** `upload_documents`. Without a processor the request is refused with a 503
        before anything else. A rejected file ends the request with a 500 that quotes
        the rejection, before any file is processed, so the collection is untouched.
        Otherwise the saved files are processed as one batch. */
    method UploadDocuments(tempDir: string, files: seq<Upload>, stamp: nat -> string)
      returns (r: Result<UploadResponse, HttpError>)
      requires Valid()
      modifies processor
      ensures Valid()
      ensures processor == null ==> r == Failure(HttpError(503, PROCESSOR_UNAVAILABLE))
      ensures processor != null && FirstRejection(files).Some? ==>
        (r == Failure(HttpError(500, UPLOAD_FAILED + FirstRejection(files).value))
         && processor.collection == old(processor.collection) && processor.nextId == old(processor.nextId))
      ensures processor != null && FirstRejection(files).None? ==>
        (var reports := DocumentProcessing.Reports(processor.backends, Paths.JoinAll(tempDir, Filenames(files)));
         r == Success(UploadReply(DocumentProcessing.Tally(reports)))
         && processor.collection == old(processor.collection) + DocumentProcessing.Written(processor.backends, stamp, reports, old(processor.nextId)))
    {
      if processor == null {
        return Failure(HttpError(503, PROCESSOR_UNAVAILABLE));
      }
      var paths, rejected := SaveFiles(tempDir, files);
      if rejected.Some? {
        return Failure(HttpError(500, UPLOAD_FAILED + rejected.value));
      }
      var results := processor.ProcessDocuments(paths, stamp);
      r := Success(UploadReply(results));
    }

    /** `clear_documents`: a 503 without a processor; an error raised while clearing
        becomes a 500 that quotes it. */
    method ClearDocuments(fault: DocumentProcessing.ClearFault) returns (r: Result<string, HttpError>)
      requires Valid()
      modifies processor
      ensures Valid()
      ensures processor == null ==> r == Failure(HttpError(503, PROCESSOR_UNAVAILABLE))
      ensures processor != null ==>
        (r == (if fault.NoFault? then Success("All documents cleared successfully")
               else Failure(HttpError(500, CLEAR_FAILED + fault.message)))
         && processor.collection == if fault.DeleteFails? then old(processor.collection) else [])
    {
      if processor == null {
        return Failure(HttpError(503, PROCESSOR_UNAVAILABLE));
      }
      var raised := processor.ClearCollection(fault);
      if raised.Some? {
        return Failure(HttpError(500, CLEAR_FAILED + raised.value));
      }
      r := Success("All documents cleared successfully");
    }

    /** `get_document_stats`: a 503 without a processor, otherwise the statistics,
        which never raise. */
    function DocumentStats(countFault: Option<string>): (r: Result<DocumentProcessing.CollectionStats, HttpError>)
      reads this, processor
      ensures r.Failure? <==> processor == null
      ensures r.Failure? ==> r.error == HttpError(503, PROCESSOR_UNAVAILABLE)
      ensures r.Success? ==> r.value.totalChunks == if countFault.None? then |processor.collection| else 0
    {
      if processor == null then Failure(HttpError(503, PROCESSOR_UNAVAILABLE))
      else Success(processor.GetCollectionStats(countFault))
    }

    /** `get_available_models`: a 503 without a handler; the handler's availability
        report, or a 500 quoting what it raised. */
    function AvailableModels(modelStatus: Result<Ollama.Availability, string>): (r: Result<Ollama.Availability, HttpError>)
      reads this
      ensures llm.None? ==> r == Failure(HttpError(503, LLM_UNAVAILABLE))
      ensures llm.Some? && modelStatus.Failure? ==> r == Failure(HttpError(500, MODELS_FAILED + modelStatus.error))
      ensures r.Success? <==> llm.Some? && modelStatus.Success?
      ensures r.Success? ==> r.value == modelStatus.value
    {
      if llm.None? then Failure(HttpError(503, LLM_UNAVAILABLE))
      else
        match modelStatus
        case Failure(e) => Failure(HttpError(500, MODELS_FAILED + e))
        case Success(a) => Success(a)
    }
  }
}
