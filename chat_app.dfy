/** The Streamlit front end (app.py): a session state that survives reruns, and the
    `ChatbotApp` that initialises it, answers a chat message in either mode, and
    processes or clears uploaded documents. The language model handler is a
    collaborator: a function from the question and the optional context list to its
    reply, or to the error it raised. */
module ChatApp {
  import opened Wrappers
  import opened Text
  import opened ContextDocs
  import Paths
  import Config
  import Ollama
  import DocumentProcessing

  const GENERAL_CHAT := "\U{1F4AC} General Chat"
  const DOCUMENT_CHAT := "\U{1F4C4} Document Chat"

  /** The `metadata` dictionary of an assistant message. */
  datatype TurnMetadata = TurnMetadata(
    contextUsed: nat,
    model: string,
    responseTokens: int,
    processingTime: real,
    sources: set<string>,
    success: bool,
    mode: string)

  /** An entry of `chat_history`. */
  datatype Message =
    | UserTurn(content: string, timestamp: string, mode: string)
    | AssistantTurn(content: string, timestamp: string, metadata: TurnMetadata)

  /** The value of `processing_status`: `{}` or the results of the last batch. */
  datatype Status = NoStatus | Results(results: DocumentProcessing.BatchResults)

  /** `st.session_state`: each key is absent (`None`) until it is first set. */
  class SessionState {
    var chatHistory: Option<seq<Message>>
    var documentsProcessed: Option<bool>
    var processingStatus: Option<Status>
    var currentChatMode: Option<string>

    predicate Initialized()
      reads this
    {
      chatHistory.Some? && documentsProcessed.Some? && processingStatus.Some? && currentChatMode.Some?
    }

    /** A fresh browser session: no key is set. */
    constructor ()
      ensures chatHistory.None? && documentsProcessed.None? && processingStatus.None? && currentChatMode.None?
    {
      chatHistory := None;
      documentsProcessed := None;
      processingStatus := None;
      currentChatMode := None;
    }
  }

  /** The `context_docs` handed to the handler: the retrieved list in Document Chat,
      `None` in any other mode. */
  function ContextFor(mode: string, relevant: seq<ContextDoc>): (c: Option<seq<ContextDoc>>)
    ensures c.Some? <==> mode == DOCUMENT_CHAT
    ensures c.Some? ==> c.value == relevant
  {
    if mode == DOCUMENT_CHAT then Some(relevant) else None
  }

  /** The metadata of the assistant message for a reply; `model` and
      `response_tokens` fall back to "Unknown" and 0 for a failed reply. */
  function Metadata(mode: string, relevant: seq<ContextDoc>, reply: Ollama.Reply, elapsed: real): (m: TurnMetadata)
    ensures m.mode == mode && m.processingTime == elapsed
    ensures m.success <==> reply.Answered?
    ensures m.contextUsed == if mode == DOCUMENT_CHAT then |relevant| else 0
    ensures m.sources == if mode == DOCUMENT_CHAT then Sources(relevant) else {}
    ensures m.model == if reply.Answered? then reply.model else "Unknown"
    ensures m.responseTokens == if reply.Answered? then reply.responseTokens else 0
  {
    var sources := if relevant != [] && mode == DOCUMENT_CHAT then Sources(relevant) else {};
    TurnMetadata(
      if mode == DOCUMENT_CHAT then |relevant| else 0,
      if reply.Answered? then reply.model else "Unknown",
      if reply.Answered? then reply.responseTokens else 0,
      elapsed,
      sources,
      reply.Answered?,
      mode)
  }

  /** What the chat input shows, and whether it is disabled. */
  datatype ChatInput = ChatInput(placeholder: string, disabled: bool)

  /** The chat-input rule of `render_chat_interface`. */
  function InputFor(mode: string, processed: bool, hasLlm: bool): (c: ChatInput)
    ensures c.disabled <==> (mode == DOCUMENT_CHAT && !processed) || !hasLlm
    ensures mode != DOCUMENT_CHAT ==> c.placeholder == "Ask me anything..."
    ensures mode == DOCUMENT_CHAT && processed ==> c.placeholder == "Ask a question about your documents..."
    ensures mode == DOCUMENT_CHAT && !processed ==> c.placeholder == "Upload documents first to enable document chat"
  {
    var c :=
      if mode == DOCUMENT_CHAT then
        ChatInput(if processed then "Ask a question about your documents..." else "Upload documents first to enable document chat",
                  !processed)
      else ChatInput("Ask me anything...", false);
    if !hasLlm then c.(disabled := true) else c
  }

  /** The saving loop of `process_uploaded_files`: one path per uploaded file, in
      upload order. Writing the bytes is not modelled. */
  method SaveUploads(tempDir: string, names: seq<string>) returns (filePaths: seq<string>)
    ensures filePaths == Paths.JoinAll(tempDir, names)
  {
    filePaths := [];
    var i := 0;
    while i < |names|
      invariant 0 <= i <= |names|
      invariant filePaths == Paths.JoinAll(tempDir, names[..i])
    {
      assert names[..i + 1] == names[..i] + [names[i]];
      filePaths := filePaths + [Paths.Join(tempDir, names[i])];
      i := i + 1;
    }
    assert names[..|names|] == names;
  }

  class ChatbotApp {
    const session: SessionState
    /** `None` in the source when building the document processor raised. */
    const processor: DocumentProcessing.DocumentProcessor?
    /** `None` in the source when building the handler raised. */
    const llm: Option<Ollama.Generator>

    ghost predicate Valid()
      reads this, processor
    {
      processor != null ==> processor.Valid()
    }

    /** `__init__`: the app is built on the surviving session state, which it
        initialises. */
    constructor (session: SessionState, processor: DocumentProcessing.DocumentProcessor?, llm: Option<Ollama.Generator>)
      requires processor != null ==> processor.Valid()
      modifies session
      ensures Valid() && this.session == session && this.processor == processor && this.llm == llm
      ensures session.Initialized()
      ensures old(session.Initialized()) ==>
        (session.chatHistory == old(session.chatHistory)
         && session.documentsProcessed == old(session.documentsProcessed)
         && session.processingStatus == old(session.processingStatus)
         && session.currentChatMode == old(session.currentChatMode))
    {
      this.session := session;
      this.processor := processor;
      this.llm := llm;
      new;
      InitializeSessionState();
    }

    /** `initialize_session_state`: each key gets its default only when absent, so a
        key that is already set keeps its value and a second call changes nothing. */
    method InitializeSessionState()
      modifies session
      ensures session.Initialized()
      ensures session.chatHistory == if old(session.chatHistory).None? then Some([]) else old(session.chatHistory)
      ensures session.documentsProcessed ==
        if old(session.documentsProcessed).None? then Some(false) else old(session.documentsProcessed)
      ensures session.processingStatus ==
        if old(session.processingStatus).None? then Some(NoStatus) else old(session.processingStatus)
      ensures session.currentChatMode ==
        if old(session.currentChatMode).None? then Some(GENERAL_CHAT) else old(session.currentChatMode)
    {
      if session.chatHistory.None? {
        session.chatHistory := Some([]);
      }
      if session.documentsProcessed.None? {
        session.documentsProcessed := Some(false);
      }
      if session.processingStatus.None? {
        session.processingStatus := Some(NoStatus);
      }
      if session.currentChatMode.None? {
        session.currentChatMode := Some(GENERAL_CHAT);
      }
    }

    /** Whether a message in `mode` searches the documents: only in Document Chat,
        with a processor, once documents have been processed. */
    predicate Retrieves(mode: string, processed: bool)
      reads this
    {
      mode == DOCUMENT_CHAT && processor != null && processed
    }

    /** The documents retrieved for `input`: the top `RETRIEVAL_K` search results when
        the message searches, none otherwise. */
    function Relevant(input: string, mode: string, processed: bool): (docs: seq<ContextDoc>)
      reads this, processor
      ensures !Retrieves(mode, processed) ==> docs == []
      ensures |docs| <= Config.RETRIEVAL_K
    {
      if Retrieves(mode, processed) then
        DocumentProcessing.AsContextDocs(DocumentProcessing.SearchResults(processor.backends, input, Config.RETRIEVAL_K, processor.collection))
      else []
    }

    /** The messages one question adds to the history: the user's turn, then the
        assistant's turn unless generating the reply raised. */
    function Exchange(input: string, mode: string, processed: bool, userTime: string, replyTime: string, elapsed: real): (turns: seq<Message>)
      requires llm.Some?
      reads this, processor
      ensures 1 <= |turns| <= 2 && turns[0] == UserTurn(input, userTime, mode)
      ensures |turns| == 2 <==> llm.value(input, ContextFor(mode, Relevant(input, mode, processed))).Success?
    {
      var relevant := Relevant(input, mode, processed);
      var user := UserTurn(input, userTime, mode);
      match llm.value(input, ContextFor(mode, relevant))
      case Failure(_) => [user]
      case Success(reply) => [user, AssistantTurn(reply.response, replyTime, Metadata(mode, relevant, reply, elapsed))]
    }

    /** Every retrieved document is a chunk the collection holds, and its source is the
        base name of that chunk's file. */
    lemma RetrievedFromCollection(input: string, mode: string, processed: bool, i: nat)
      requires i < |Relevant(input, mode, processed)|
      ensures processor != null
      ensures exists p ::
        (0 <= p < |processor.collection|
         && processor.collection[p].document == ContentOf(Relevant(input, mode, processed)[i])
         && processor.collection[p].metadata.base.Source() == SourceOf(Relevant(input, mode, processed)[i]))
    {
      var results := DocumentProcessing.SearchResults(processor.backends, input, Config.RETRIEVAL_K, processor.collection);
      assert Relevant(input, mode, processed)[i] == DocumentProcessing.AsContextDoc(results[i]);
      assert DocumentProcessing.HeldIn(processor.collection, results[i].content, results[i].metadata);
      var p :| 0 <= p < |processor.collection| && processor.collection[p].document == results[i].content
        && processor.collection[p].metadata == results[i].metadata;
    }

    /** The sources shown with an answer name only files that have chunks in the
        collection, and at most `RETRIEVAL_K` chunks are used. */
    lemma SourcesAreStoredFiles(input: string, mode: string, processed: bool, reply: Ollama.Reply, elapsed: real)
      ensures var m := Metadata(mode, Relevant(input, mode, processed), reply, elapsed);
        && m.contextUsed <= Config.RETRIEVAL_K
        && forall s :: s in m.sources ==>
             processor != null && exists p :: 0 <= p < |processor.collection| && processor.collection[p].metadata.base.Source() == s
    {
      var relevant := Relevant(input, mode, processed);
      var m := Metadata(mode, relevant, reply, elapsed);
      forall s | s in m.sources
        ensures processor != null
        ensures exists p :: 0 <= p < |processor.collection| && processor.collection[p].metadata.base.Source() == s
      {
        var k :| 0 <= k < |relevant| && SourceOf(relevant[k]) == s;
        RetrievedFromCollection(input, mode, processed, k);
      }
    }

    /** In Document Chat before any documents are processed, the handler is given an
        empty list, which it treats like no context; in General Chat it is given none. */
    lemma NoDocumentsMeansNoContext(input: string, mode: string, processed: bool)
      requires !Retrieves(mode, processed)
      ensures NoContext(ContextFor(mode, Relevant(input, mode, processed)))
      ensures mode == DOCUMENT_CHAT ==> ContextFor(mode, Relevant(input, mode, processed)) == Some([])
    {
    }

    /** The retrieval step of `handle_user_input`. */
    method Retrieve(input: string, mode: string, processed: bool) returns (relevant: seq<ContextDoc>)
      ensures relevant == Relevant(input, mode, processed)
    {
      relevant := [];
      if mode == DOCUMENT_CHAT && processor != null && processed {
        var results := processor.SearchSimilarDocuments(input, Some(Config.RETRIEVAL_K));
        relevant := DocumentProcessing.AsContextDocs(results);
      }
    }

    /** `handle_user_input`: without a handler nothing happens; otherwise the user's
        turn is appended first, then the reply to the question, grounded in the
        retrieved documents in Document Chat. */
    method HandleUserInput(input: string, mode: string, userTime: string, replyTime: string, elapsed: real)
      requires Valid() && session.Initialized()
      modifies session
      ensures session.Initialized()
      ensures session.documentsProcessed == old(session.documentsProcessed)
      ensures session.processingStatus == old(session.processingStatus)
      ensures session.currentChatMode == old(session.currentChatMode)
      ensures llm.None? ==> session.chatHistory == old(session.chatHistory)
      ensures llm.Some? ==>
        (session.chatHistory.value ==
         old(session.chatHistory.value) + Exchange(input, mode, old(session.documentsProcessed.value), userTime, replyTime, elapsed))
    {
      if llm.None? {
        return;
      }
      var processed := session.documentsProcessed.value;
      var before := session.chatHistory.value;
      var user := UserTurn(input, userTime, mode);
      session.chatHistory := Some(before + [user]);
      var relevant := Retrieve(input, mode, processed);
      var reply := llm.value(input, ContextFor(mode, relevant));
      if reply.Failure? {
        assert Exchange(input, mode, processed, userTime, replyTime, elapsed) == [user];
        return;
      }
      var answer := AssistantTurn(reply.value.response, replyTime, Metadata(mode, relevant, reply.value, elapsed));
      assert Exchange(input, mode, processed, userTime, replyTime, elapsed) == [user, answer];
      assert before + [user] + [answer] == before + [user, answer];
      session.chatHistory := Some(session.chatHistory.value + [answer]);
    }

    /** `render_chat_interface`: records the selected mode, and passes typed text to
        `handle_user_input` only when the chat input is enabled. */
    method RenderChatInterface(mode: string, typed: string, userTime: string, replyTime: string, elapsed: real)
      returns (input: ChatInput)
      requires Valid() && session.Initialized()
      modifies session
      ensures session.Initialized() && session.currentChatMode == Some(mode)
      ensures input == InputFor(mode, old(session.documentsProcessed.value), llm.Some?)
      ensures session.documentsProcessed == old(session.documentsProcessed)
      ensures session.processingStatus == old(session.processingStatus)
      ensures input.disabled || typed == [] ==> session.chatHistory == old(session.chatHistory)
      ensures !input.disabled && typed != [] ==>
        (session.chatHistory.value ==
         old(session.chatHistory.value) + Exchange(typed, mode, old(session.documentsProcessed.value), userTime, replyTime, elapsed))
    {
      session.currentChatMode := Some(mode);
      var processed := session.documentsProcessed.value;
      var placeholder: string;
      var disabled: bool;
      if mode == DOCUMENT_CHAT {
        placeholder := if processed then "Ask a question about your documents..." else "Upload documents first to enable document chat";
        disabled := !processed;
      } else {
        placeholder := "Ask me anything...";
        disabled := false;
      }
      if llm.None? {
        disabled := true;
      }
      input := ChatInput(placeholder, disabled);
      if !disabled && typed != [] {
        HandleUserInput(typed, mode, userTime, replyTime, elapsed);
      }
    }

    /** `process_uploaded_files`: without a processor nothing happens; otherwise the
        files are saved under the temporary directory, processed as one batch, the
        results kept as `processing_status`, and `documents_processed` set, even when
        no file could be processed. */
    method ProcessUploadedFiles(tempDir: string, names: seq<string>, stamp: nat -> string)
      requires Valid() && session.Initialized()
      modifies session, processor
      ensures Valid() && session.Initialized()
      ensures session.chatHistory == old(session.chatHistory)
      ensures session.currentChatMode == old(session.currentChatMode)
      ensures processor == null ==>
        (session.documentsProcessed == old(session.documentsProcessed)
         && session.processingStatus == old(session.processingStatus))
      ensures processor != null ==>
        var reports := DocumentProcessing.Reports(processor.backends, Paths.JoinAll(tempDir, names));
        && session.documentsProcessed == Some(true)
        && session.processingStatus == Some(Results(DocumentProcessing.Tally(reports)))
        && processor.collection == old(processor.collection)
             + DocumentProcessing.Written(processor.backends, stamp, reports, old(processor.nextId))
    {
      if processor == null {
        return;
      }
      var filePaths := SaveUploads(tempDir, names);
      ghost var reports := DocumentProcessing.Reports(processor.backends, filePaths);
      var results := processor.ProcessDocuments(filePaths, stamp);
      assert results == DocumentProcessing.Tally(reports);
      session.processingStatus := Some(Results(results));
      session.documentsProcessed := Some(true);
    }

    /** `clear_documents`: clears the collection and resets both flags; when clearing
        raises, the flags keep their values. */
    method ClearDocuments(fault: DocumentProcessing.ClearFault)
      requires Valid() && session.Initialized()
      modifies session, processor
      ensures Valid() && session.Initialized()
      ensures session.chatHistory == old(session.chatHistory)
      ensures session.currentChatMode == old(session.currentChatMode)
      ensures processor != null && fault.NoFault? ==>
        (processor.collection == [] && session.documentsProcessed == Some(false) && session.processingStatus == Some(NoStatus))
      ensures processor == null || !fault.NoFault? ==>
        (session.documentsProcessed == old(session.documentsProcessed) && session.processingStatus == old(session.processingStatus))
      ensures processor != null ==>
        processor.collection == if fault.DeleteFails? then old(processor.collection) else []
    {
      if processor == null {
        return;
      }
      var raised := processor.ClearCollection(fault);
      if raised.None? {
        session.documentsProcessed := Some(false);
        session.processingStatus := Some(NoStatus);
      }
    }
  }
}
