/** `_build_context_prompt`, `generate_response` and `test_connection` of the optimized
    handler variant (llm_handler_optimized.py): short prompts, at most three context
    documents of at most 500 characters each, a 30-second timeout. */
module OptimizedHandler {
  import opened Wrappers
  import opened Text
  import opened ContextDocs
  import Ollama
  import Config

  const GENERAL_PREFIX := "You are a helpful AI assistant. Answer concisely.\n\nUser: "
  const SYSTEM_PROMPT := "You are an AI assistant that answers questions based on provided documents. Be concise and reference the documents when relevant."
  const CONTEXT_HEADER := "\n\nRelevant information:\n"
  const QUESTION_LABEL := "\nUser Question: "
  const ASSISTANT_CUE := "\nAssistant:"
  /** At most this many documents reach the prompt ... */
  const MAX_DOCS := 3
  /** ... and at most this many characters of each. */
  const MAX_CONTENT := 500
  const TIMEOUT_SECONDS := 30
  const TEST_QUERY := "Hello"

  /** The numbered line of document `number` (counted from 1). */
  function Entry(number: nat, doc: ContextDoc): string {
    NatToString(number) + ". " + Take(ContentOf(doc), MAX_CONTENT) + "\n"
  }

  function Entries(docs: seq<ContextDoc>): (r: seq<string>)
    ensures |r| == |docs|
    ensures forall i :: 0 <= i < |docs| ==> r[i] == Entry(i + 1, docs[i])
  {
    seq(|docs|, i requires 0 <= i < |docs| => Entry(i + 1, docs[i]))
  }

  /** `context_docs[:3]` */
  function Shown(docs: seq<ContextDoc>): (r: seq<ContextDoc>)
    ensures |r| <= MAX_DOCS && |r| <= |docs|
    ensures forall i :: 0 <= i < |r| ==> r[i] == docs[i]
    ensures |docs| <= MAX_DOCS ==> r == docs
  {
    if |docs| <= MAX_DOCS then docs else docs[..MAX_DOCS]
  }

  function ContextText(docs: seq<ContextDoc>): string {
    CONTEXT_HEADER + Concat(Entries(Shown(docs)))
  }

  /** The prompt `_build_context_prompt` returns. */
  function ContextPrompt(query: string, docs: Option<seq<ContextDoc>>): string {
    if NoContext(docs) then GENERAL_PREFIX + query + ASSISTANT_CUE
    else SYSTEM_PROMPT + "\n" + ContextText(docs.value) + QUESTION_LABEL + query + ASSISTANT_CUE
  }

  /** `_build_context_prompt`: the general template, or the system line, the context
      and the question. */
  method BuildContextPrompt(query: string, docs: Option<seq<ContextDoc>>) returns (prompt: string)
    ensures prompt == ContextPrompt(query, docs)
  {
    if docs.None? || docs.value == [] {
      return GENERAL_PREFIX + query + ASSISTANT_CUE;
    }
    var contextText := BuildContextText(docs.value);
    prompt := SYSTEM_PROMPT + "\n" + contextText + QUESTION_LABEL + query + ASSISTANT_CUE;
  }

  /** The loop of `_build_context_prompt`: the context text grows by one numbered
      entry per shown document. */
  method BuildContextText(docs: seq<ContextDoc>) returns (contextText: string)
    ensures contextText == ContextText(docs)
  {
    var shown := if |docs| <= MAX_DOCS then docs else docs[..MAX_DOCS];
    assert shown == Shown(docs);
    ghost var entries := Entries(shown);
    contextText := CONTEXT_HEADER;
    var i := 0;
    while i < |shown|
      invariant 0 <= i <= |shown|
      invariant contextText == CONTEXT_HEADER + Concat(entries[..i])
    {
      var content := Take(ContentOf(shown[i]), MAX_CONTENT);
      var line := NatToString(i + 1) + ". " + content + "\n";
      assert line == entries[i];
      ConcatStep(CONTEXT_HEADER, entries, i);
      contextText := contextText + line;
      i := i + 1;
    }
    assert entries[..|shown|] == entries;
  }

  /** Without documents the prompt is the fixed general preamble, the question, and the
      assistant cue, with nothing in between. */
  lemma GeneralPromptShape(query: string, docs: Option<seq<ContextDoc>>)
    requires NoContext(docs)
    ensures var p := ContextPrompt(query, docs);
      && IsPrefix(GENERAL_PREFIX, p)
      && IsSuffix(ASSISTANT_CUE, p)
      && |p| == |GENERAL_PREFIX| + |query| + |ASSISTANT_CUE|
      && p[|GENERAL_PREFIX|..|GENERAL_PREFIX| + |query|] == query
  {
    var p := ContextPrompt(query, docs);
    assert p == GENERAL_PREFIX + query + ASSISTANT_CUE;
    assert p[|GENERAL_PREFIX|..|GENERAL_PREFIX| + |query|] == query;
    assert p[..|GENERAL_PREFIX|] == GENERAL_PREFIX;
  }

  /** With documents the prompt opens with the system line and the context header, and
      the question follows all context, right before the assistant cue. */
  lemma GroundedPromptShape(query: string, docs: seq<ContextDoc>)
    requires docs != []
    ensures var p := ContextPrompt(query, Some(docs));
      && IsPrefix(SYSTEM_PROMPT + "\n" + CONTEXT_HEADER, p)
      && IsSuffix(QUESTION_LABEL + query + ASSISTANT_CUE, p)
  {
    var p := ContextPrompt(query, Some(docs));
    var c := Concat(Entries(Shown(docs)));
    var head := SYSTEM_PROMPT + "\n" + CONTEXT_HEADER;
    var tail := QUESTION_LABEL + query + ASSISTANT_CUE;
    assert p == head + c + tail;
    assert p[..|head|] == head;
    assert p[|p| - |tail|..] == tail;
  }

  /** Documents after the third never influence the prompt. */
  lemma OnlyFirstThreeCount(query: string, docs: seq<ContextDoc>)
    requires |docs| > MAX_DOCS
    ensures ContextPrompt(query, Some(docs)) == ContextPrompt(query, Some(docs[..MAX_DOCS]))
  {
    assert Shown(docs) == Shown(docs[..MAX_DOCS]);
  }

  /** Each shown document, in its numbered and truncated form, is part of the context. */
  lemma ShownDocumentInContext(docs: seq<ContextDoc>, k: nat)
    requires k < |docs| && k < MAX_DOCS
    ensures Contains(ContextText(docs), Entry(k + 1, docs[k]))
  {
    var entries := Entries(Shown(docs));
    assert entries[k] == Entry(k + 1, docs[k]);
    ConcatContainsEach(entries, k);
    ContainsRight(CONTEXT_HEADER, Concat(entries), entries[k]);
  }

  /** ... and so of the prompt. */
  lemma ShownDocumentsAppear(query: string, docs: seq<ContextDoc>, k: nat)
    requires k < |docs| && k < MAX_DOCS
    ensures Contains(ContextPrompt(query, Some(docs)), Entry(k + 1, docs[k]))
  {
    var m := Entry(k + 1, docs[k]);
    var c := ContextText(docs);
    ShownDocumentInContext(docs, k);
    ContainsRight(SYSTEM_PROMPT + "\n", c, m);
    ContainsLeft(SYSTEM_PROMPT + "\n" + c, QUESTION_LABEL, m);
    ContainsLeft(SYSTEM_PROMPT + "\n" + c + QUESTION_LABEL, query, m);
    ContainsLeft(SYSTEM_PROMPT + "\n" + c + QUESTION_LABEL + query, ASSISTANT_CUE, m);
  }

  /** An entry is at most 504 characters: a one-digit number, ". ", 500 characters of
      content and a newline. */
  lemma EntryBound(number: nat, doc: ContextDoc)
    requires 1 <= number <= MAX_DOCS
    ensures |Entry(number, doc)| <= 504
  {
  }

  /** However long the documents, the grounded prompt exceeds the question by a fixed
      amount at most: the context is capped at three entries of 504 characters. */
  lemma GroundedPromptBound(query: string, docs: seq<ContextDoc>)
    requires docs != []
    ensures |ContextPrompt(query, Some(docs))|
      <= |SYSTEM_PROMPT| + 1 + |CONTEXT_HEADER| + MAX_DOCS * 504 + |QUESTION_LABEL| + |query| + |ASSISTANT_CUE|
  {
    var shown := Shown(docs);
    var entries := Entries(shown);
    forall k | 0 <= k < |entries|
      ensures |entries[k]| <= 504
    {
      EntryBound(k + 1, shown[k]);
    }
    ConcatLengthBound(entries, 504);
  }

  /** The options of the generate request. */
  const OPTIONS: seq<(string, Ollama.OptionValue)> := [
    ("temperature", Ollama.Number(0.7)),
    ("top_p", Ollama.Number(0.9)),
    ("num_predict", Ollama.Integer(256)),
    ("num_ctx", Ollama.Integer(2048)),
    ("stop", Ollama.Words(["User:", "Human:"])),
    ("repeat_penalty", Ollama.Number(1.1)),
    ("seed", Ollama.Integer(-1)),
    ("tfs_z", Ollama.Number(1.0)),
    ("num_keep", Ollama.Integer(0)),
    ("typical_p", Ollama.Number(1.0)),
    ("presence_penalty", Ollama.Number(0.0)),
    ("frequency_penalty", Ollama.Number(0.0)),
    ("mirostat", Ollama.Integer(0)),
    ("mirostat_tau", Ollama.Number(5.0)),
    ("mirostat_eta", Ollama.Number(0.1)),
    ("penalize_newline", Ollama.Flag(true)),
    ("numa", Ollama.Flag(false))
  ]

  function Payload(query: string, docs: Option<seq<ContextDoc>>): Ollama.GeneratePayload {
    Ollama.GeneratePayload(Config.LLM_MODEL, ContextPrompt(query, docs), false, OPTIONS)
  }

  /** `generate_response`: one non-streaming request carrying the built prompt, and the
      outcome mapped to a result record. */
  function GenerateResponse(server: Ollama.Server, query: string, docs: Option<seq<ContextDoc>>): (r: Ollama.Reply)
    ensures var outcome := server(Payload(query, docs), TIMEOUT_SECONDS);
      && (r.Answered? <==> outcome.Completed? && outcome.status == 200 && outcome.json.Success?)
      && (r.Answered? ==> r.model == Config.LLM_MODEL && r.contextUsed == (if NoContext(docs) then 0 else |docs.value|))
      && (outcome.TimedOut? ==> r == Ollama.Apology("Request timed out", Ollama.TIMEOUT_APOLOGY))
  {
    Ollama.MapGenerate(Config.LLM_MODEL, Ollama.ContextCount(docs), server(Payload(query, docs), TIMEOUT_SECONDS))
  }

  /** The payload carries the prompt `_build_context_prompt` builds, the configured
      model, and streaming off. */
  lemma PayloadCarriesPrompt(query: string, docs: Option<seq<ContextDoc>>)
    ensures Payload(query, docs).prompt == ContextPrompt(query, docs)
    ensures Payload(query, docs).model == Config.LLM_MODEL && !Payload(query, docs).stream
  {
  }

  /** `test_connection` probes with "Hello" and no documents. */
  function TestConnection(tags: Ollama.HttpOutcome<Ollama.TagsBody>, server: Ollama.Server): (r: Ollama.TestReport)
    ensures Ollama.CheckConnection(Config.LLM_MODEL, tags) == Success(false) ==> r.NotConnected? && |r.suggestions| == 3
    ensures Ollama.CheckConnection(Config.LLM_MODEL, tags) == Success(true) ==>
      r.Probed? && r.modelResponse == GenerateResponse(server, TEST_QUERY, None).response
  {
    Ollama.TestConnection(Config.LLM_MODEL, Ollama.CheckConnection(Config.LLM_MODEL, tags),
                          GenerateResponse(server, TEST_QUERY, None))
  }

  /** The configured model name "llama3.1:8b" holds a colon, so the connection check
      never reports it as available and `test_connection` never gets to the probe. */
  lemma ConfiguredModelNeverConnects(tags: Ollama.HttpOutcome<Ollama.TagsBody>, server: Ollama.Server)
    ensures Ollama.CheckConnection(Config.LLM_MODEL, tags) != Success(true)
    ensures !TestConnection(tags, server).Probed?
    ensures Ollama.CheckModelAvailability(Config.LLM_MODEL, tags).Available? ==>
      !Ollama.CheckModelAvailability(Config.LLM_MODEL, tags).modelLoaded
  {
    assert ':' in Config.LLM_MODEL by {
      assert Config.LLM_MODEL[8] == ':';
    }
    Ollama.ColonModelNeverConnects(Config.LLM_MODEL, tags);
  }
}
