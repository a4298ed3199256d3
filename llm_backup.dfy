/** `_build_context_prompt`, `generate_response` and `test_connection` of the backup
    handler variant (llm_handler_backup.py): a conversational general prompt, and a
    grounded prompt that lists every retrieved document, with its source and
    relevance, between two markers; a 60-second timeout. */
module BackupHandler {
  import opened Wrappers
  import opened Text
  import opened ContextDocs
  import Ollama
  import Config

  /** The conversational system line, written in short pieces so that facts about its
      characters can be checked piece by piece. */
  const GENERAL_SYSTEM := G1 + G2 + G3 + G4 + G5 + G6 + G7
  const G1 := "You are a helpful "
  const G2 := "and friendly AI "
  const G3 := "assistant. Engage "
  const G4 := "naturally and "
  const G5 := "answer the user's "
  const G6 := "questions "
  const G7 := "conversationally."
  const USER_LABEL := "\nUser: "
  const ASSISTANT_CUE := "\nAssistant:"

  /** The system text of the grounded template. */
  const DOCUMENT_SYSTEM :=
    "You are a knowledgeable and friendly AI assistant that specializes in answering questions based on provided documents. Your approach should be:\n" +
    "\n" +
    "DOCUMENT-BASED RESPONSES:\n" +
    "- Always prioritize information from the provided documents\n" +
    "- Be enthusiastic about sharing knowledge from the documents\n" +
    "- Clearly reference which document you're drawing information from\n" +
    "- If information is incomplete, acknowledge it and suggest what additional context might help\n" +
    "\n" +
    "COMMUNICATION STYLE:\n" +
    "- Be warm and conversational while remaining accurate\n" +
    "- Use phrases like \"Based on the documents provided...\" or \"According to the information I found...\"\n" +
    "- If you need to go beyond the documents, clearly state when you're doing so\n" +
    "- Be helpful in explaining complex information from the documents in simple terms\n" +
    "\n" +
    "Remember: Your primary job is to be a friendly bridge between the user and the document content!"

  const START_MARKER := "--- RELEVANT DOCUMENTS ---"
  const END_MARKER := "--- END OF DOCUMENTS ---"
  const QUESTION_LABEL := "\n\nUser Question: "
  /** The closing request of the grounded template. */
  const INSTRUCTIONS :=
    "Please answer the question based on the provided documents. " +
    "Be friendly and conversational in your response. " +
    "If the documents don't contain sufficient information to answer the question, please state that clearly and explain what information is missing."
  const ANSWER_CUE := "\n\nAnswer:"
  const TIMEOUT_SECONDS := 60
  const TEST_QUERY := "Hello, please respond with 'OK' if you can hear me."

  /** The block of document `number` (counted from 1). `format` renders the relevance
      score with two decimals (`{similarity:.2f}`). */
  function Entry(number: nat, doc: ContextDoc, format: real -> string): string {
    "\nDocument " + NatToString(number) + " (Source: " + SourceOf(doc) + ", Relevance: "
      + format(SimilarityOf(doc)) + "):\n" + ContentOf(doc) + "\n"
  }

  function Entries(docs: seq<ContextDoc>, format: real -> string): (r: seq<string>)
    ensures |r| == |docs|
    ensures forall i :: 0 <= i < |docs| ==> r[i] == Entry(i + 1, docs[i], format)
  {
    seq(|docs|, i requires 0 <= i < |docs| => Entry(i + 1, docs[i], format))
  }

  function Opening(): string {
    "\n\n" + START_MARKER + "\n"
  }

  function Closing(): string {
    "\n" + END_MARKER + "\n"
  }

  /** The `context_text` built for `docs`: every document between the two markers. */
  function ContextText(docs: seq<ContextDoc>, format: real -> string): string {
    Opening() + Concat(Entries(docs, format)) + Closing()
  }

  /** The fixed texts of the two templates: the conversational system line, and the
      system text and closing request of the grounded template. The backup handler's
      own texts are `BACKUP`; the properties below hold whatever the texts are. */
  datatype Templates = Templates(general: string, system: string, instructions: string)

  const BACKUP := Templates(GENERAL_SYSTEM, DOCUMENT_SYSTEM, INSTRUCTIONS)

  /** The conversational template for a question without documents. */
  function GeneralPrompt(general: string, query: string): string {
    general + USER_LABEL + query + ASSISTANT_CUE
  }

  /** The grounded template, filled with its system text, the context text, the
      question and the closing request. */
  function Grounded(system: string, context: string, query: string, instructions: string): string {
    system + "\n\n" + context + QUESTION_LABEL + query + "\n\n" + instructions + ANSWER_CUE
  }

  /** The prompt `_build_context_prompt` returns, with `BACKUP` as the texts. */
  function ContextPrompt(t: Templates, query: string, docs: Option<seq<ContextDoc>>, format: real -> string): string {
    if NoContext(docs) then GeneralPrompt(t.general, query)
    else Grounded(t.system, ContextText(docs.value, format), query, t.instructions)
  }

  /** `_build_context_prompt`: the conversational template, or the grounded template
      with every document listed. */
  method BuildContextPrompt(query: string, docs: Option<seq<ContextDoc>>, format: real -> string) returns (prompt: string)
    ensures prompt == ContextPrompt(BACKUP, query, docs, format)
  {
    if docs.None? || docs.value == [] {
      return GENERAL_SYSTEM + USER_LABEL + query + ASSISTANT_CUE;
    }
    var contextText := BuildContextText(docs.value, format);
    prompt := DOCUMENT_SYSTEM + "\n\n" + contextText + QUESTION_LABEL + query + "\n\n" + INSTRUCTIONS + ANSWER_CUE;
  }

  /** The context text after the blocks of the first `n` documents. */
  function ContextSoFar(docs: seq<ContextDoc>, format: real -> string, n: nat): string
    requires n <= |docs|
  {
    Opening() + Concat(Entries(docs, format)[..n])
  }

  /** The loop of `_build_context_prompt`: after the opening marker, one block per
      document, then the closing marker. */
  method BuildContextText(docs: seq<ContextDoc>, format: real -> string) returns (contextText: string)
    ensures contextText == ContextText(docs, format)
  {
    contextText := "\n\n--- RELEVANT DOCUMENTS ---\n";
    assert contextText == ContextSoFar(docs, format, 0);
    var i := 0;
    while i < |docs|
      invariant 0 <= i <= |docs|
      invariant contextText == ContextSoFar(docs, format, i)
    {
      var doc := docs[i];
      var source := doc.source.GetOr("Unknown");
      var content := doc.content.GetOr("");
      var similarity := doc.similarity.GetOr(0.0);
      var block := "\nDocument " + NatToString(i + 1) + " (Source: " + source + ", Relevance: "
        + format(similarity) + "):\n" + content + "\n";
      ContextStep(docs, format, i, contextText, block);
      contextText := contextText + block;
      i := i + 1;
    }
    ContextDone(docs, format, contextText);
    contextText := contextText + "\n--- END OF DOCUMENTS ---\n";
  }

  /** One turn of the loop: the block of the document at position `i` extends the
      context text built from the documents before it. */
  lemma ContextStep(docs: seq<ContextDoc>, format: real -> string, i: nat, text: string, block: string)
    requires i < |docs|
    requires text == ContextSoFar(docs, format, i)
    requires block == Entry(i + 1, docs[i], format)
    ensures text + block == ContextSoFar(docs, format, i + 1)
  {
    ConcatStep(Opening(), Entries(docs, format), i);
  }

  /** After the last document, the closing marker completes the context text. */
  lemma ContextDone(docs: seq<ContextDoc>, format: real -> string, text: string)
    requires text == ContextSoFar(docs, format, |docs|)
    ensures text + "\n--- END OF DOCUMENTS ---\n" == ContextText(docs, format)
  {
    var entries := Entries(docs, format);
    assert entries[..|docs|] == entries;
  }

  /** Without documents the prompt is the conversational system line, the question,
      and the assistant cue, with nothing in between; the format of scores plays no part. */
  lemma GeneralPromptShape(t: Templates, query: string, docs: Option<seq<ContextDoc>>, format: real -> string)
    requires NoContext(docs)
    ensures var p := ContextPrompt(t, query, docs, format);
      var head := t.general + USER_LABEL;
      && IsPrefix(head, p)
      && IsSuffix(ASSISTANT_CUE, p)
      && |p| == |head| + |query| + |ASSISTANT_CUE|
      && p[|head|..|head| + |query|] == query
  {
    var head := t.general + USER_LABEL;
    var p := GeneralPrompt(t.general, query);
    assert p == head + query + ASSISTANT_CUE;
    assert p[|head|..|head| + |query|] == query;
    assert p[..|head|] == head;
  }

  /** The conversational template adds no document marker of its own: when its system
      line has no dash, a marker occurs in the general prompt exactly when it occurs in
      the question. */
  lemma GeneralPromptHasNoMarker(t: Templates, query: string, docs: Option<seq<ContextDoc>>, format: real -> string, m: string)
    requires NoContext(docs) && '-' !in t.general
    requires m == START_MARKER || m == END_MARKER
    ensures Contains(ContextPrompt(t, query, docs, format), m) <==> Contains(query, m)
  {
    var head := t.general + USER_LABEL;
    assert ContextPrompt(t, query, docs, format) == head + query + ASSISTANT_CUE;
    if Contains(query, m) {
      ContainsLeft(query, ASSISTANT_CUE, m);
      ContainsRight(head, query + ASSISTANT_CUE, m);
      assert head + (query + ASSISTANT_CUE) == head + query + ASSISTANT_CUE;
    } else {
      assert m[0] == '-' && '\n' !in m;
      assert '-' !in USER_LABEL && '-' !in ASSISTANT_CUE;
      NotInFrame(head, query, ASSISTANT_CUE, m);
    }
  }

  /** The backup handler's own conversational system line has no dash. */
  lemma GeneralSystemHasNoDash()
    ensures '-' !in GENERAL_SYSTEM
  {
    NoDash1(); NoDash2(); NoDash3(); NoDash4(); NoDash5(); NoDash6(); NoDash7();
  }

  // One lemma per piece of the system line, each small enough to check directly.

  lemma NoDash1() ensures '-' !in G1 { }
  lemma NoDash2() ensures '-' !in G2 { }
  lemma NoDash3() ensures '-' !in G3 { }
  lemma NoDash4() ensures '-' !in G4 { }
  lemma NoDash5() ensures '-' !in G5 { }
  lemma NoDash6() ensures '-' !in G6 { }
  lemma NoDash7() ensures '-' !in G7 { }

  /** So with the backup handler's texts a general prompt holds a document marker only
      when the user typed it. */
  lemma BackupGeneralPromptHasNoMarker(query: string, docs: Option<seq<ContextDoc>>, format: real -> string, m: string)
    requires NoContext(docs)
    requires m == START_MARKER || m == END_MARKER
    ensures Contains(ContextPrompt(BACKUP, query, docs, format), m) <==> Contains(query, m)
  {
    GeneralSystemHasNoDash();
    GeneralPromptHasNoMarker(BACKUP, query, docs, format, m);
  }

  /** The context text opens with the start marker and ends with the end marker. */
  lemma ContextTextFramed(docs: seq<ContextDoc>, format: real -> string)
    ensures var c := ContextText(docs, format);
      && IsPrefix(Opening(), c)
      && IsSuffix(Closing(), c)
  {
    var c := ContextText(docs, format);
    assert c[..|Opening()|] == Opening();
    assert c[|c| - |Closing()|..] == Closing();
  }

  /** With documents the prompt opens with the system text, the context text follows
      after a blank line, and the prompt ends with the question, the closing request
      and "Answer:". */
  lemma GroundedPromptShape(t: Templates, query: string, docs: seq<ContextDoc>, format: real -> string)
    requires docs != []
    ensures var p := ContextPrompt(t, query, Some(docs), format);
      var tail := QUESTION_LABEL + query + "\n\n" + t.instructions + ANSWER_CUE;
      && IsPrefix(t.system + "\n\n", p)
      && OccursAt(p, ContextText(docs, format), |t.system| + 2)
      && IsSuffix(tail, p)
      && |p| == |t.system| + 2 + |ContextText(docs, format)| + |tail|
  {
    var context := ContextText(docs, format);
    var head := t.system + "\n\n";
    var tail := QUESTION_LABEL + query + "\n\n" + t.instructions + ANSWER_CUE;
    var p := Grounded(t.system, context, query, t.instructions);
    assert p == head + context + tail;
    Framed(head, context, tail);
  }

  /** Every document, with its number, source and relevance, is part of the context
      text: unlike the optimized variant, no document is dropped. */
  lemma EveryDocumentInContext(docs: seq<ContextDoc>, format: real -> string, k: nat)
    requires k < |docs|
    ensures Contains(ContextText(docs, format), Entry(k + 1, docs[k], format))
  {
    var entries := Entries(docs, format);
    ConcatContainsEach(entries, k);
    ContainsRight(Opening(), Concat(entries), entries[k]);
    ContainsLeft(Opening() + Concat(entries), Closing(), entries[k]);
  }

  /** A document's block holds its whole content. */
  lemma EntryHoldsContent(number: nat, doc: ContextDoc, format: real -> string)
    ensures Contains(Entry(number, doc, format), ContentOf(doc))
  {
    var before := "\nDocument " + NatToString(number) + " (Source: " + SourceOf(doc) + ", Relevance: "
      + format(SimilarityOf(doc)) + "):\n";
    assert Entry(number, doc, format) == before + ContentOf(doc) + "\n";
    ContainsSelf(ContentOf(doc));
    ContainsRight(before, ContentOf(doc), ContentOf(doc));
    ContainsLeft(before + ContentOf(doc), "\n", ContentOf(doc));
  }

  /** The whole content of each document reaches the prompt: unlike the optimized
      variant, nothing is truncated and no document is dropped. */
  lemma EveryContentInPrompt(t: Templates, query: string, docs: seq<ContextDoc>, format: real -> string, k: nat)
    requires k < |docs|
    ensures Contains(ContextPrompt(t, query, Some(docs), format), ContentOf(docs[k]))
  {
    var c := ContextText(docs, format);
    var m := ContentOf(docs[k]);
    var head := t.system + "\n\n";
    var tail := QUESTION_LABEL + query + "\n\n" + t.instructions + ANSWER_CUE;
    EntryHoldsContent(k + 1, docs[k], format);
    EveryDocumentInContext(docs, format, k);
    ContainsTransitive(c, Entry(k + 1, docs[k], format), m);
    ContainsRight(head, c, m);
    ContainsLeft(head + c, tail, m);
    assert Grounded(t.system, c, query, t.instructions) == head + c + tail;
  }

  /** The options of the generate request. */
  const OPTIONS: seq<(string, Ollama.OptionValue)> := [
    ("temperature", Ollama.Number(0.7)),
    ("top_p", Ollama.Number(0.9)),
    ("num_predict", Ollama.Integer(512)),
    ("num_ctx", Ollama.Integer(2048)),
    ("stop", Ollama.Words(["User:", "Human:"]))
  ]

  function Payload(t: Templates, query: string, docs: Option<seq<ContextDoc>>, format: real -> string): Ollama.GeneratePayload {
    Ollama.GeneratePayload(Config.LLM_MODEL, ContextPrompt(t, query, docs, format), false, OPTIONS)
  }

  /** `generate_response`: one non-streaming request carrying the built prompt with a
      60-second timeout, and the outcome mapped to a result record. */
  function GenerateResponse(t: Templates, server: Ollama.Server, query: string, docs: Option<seq<ContextDoc>>, format: real -> string): (r: Ollama.Reply)
    ensures var outcome := server(Payload(t, query, docs, format), TIMEOUT_SECONDS);
      && (r.Answered? <==> outcome.Completed? && outcome.status == 200 && outcome.json.Success?)
      && (r.Answered? ==> r.model == Config.LLM_MODEL && r.contextUsed == (if NoContext(docs) then 0 else |docs.value|))
      && (outcome.TimedOut? ==> r == Ollama.Apology("Request timed out", Ollama.TIMEOUT_APOLOGY))
      && (outcome.Raised? ==> r == Ollama.Apology(outcome.message, Ollama.UNEXPECTED_APOLOGY))
  {
    Ollama.MapGenerate(Config.LLM_MODEL, Ollama.ContextCount(docs), server(Payload(t, query, docs, format), TIMEOUT_SECONDS))
  }

  /** The payload carries the built prompt, the configured model, streaming off and
      the five options. */
  lemma PayloadCarriesPrompt(t: Templates, query: string, docs: Option<seq<ContextDoc>>, format: real -> string)
    ensures var p := Payload(t, query, docs, format);
      p.prompt == ContextPrompt(t, query, docs, format) && p.model == Config.LLM_MODEL && !p.stream && |p.options| == 5
  {
  }

  /** `test_connection` probes with a fixed greeting and no documents. */
  function TestConnection(t: Templates, tags: Ollama.HttpOutcome<Ollama.TagsBody>, server: Ollama.Server, format: real -> string): (r: Ollama.TestReport)
    ensures Ollama.CheckConnection(Config.LLM_MODEL, tags) == Success(false) ==> r.NotConnected? && |r.suggestions| == 3
    ensures Ollama.CheckConnection(Config.LLM_MODEL, tags) == Success(true) ==>
      r.Probed? && r.modelResponse == GenerateResponse(t, server, TEST_QUERY, None, format).response
    ensures Ollama.CheckConnection(Config.LLM_MODEL, tags).Failure? ==> r.TestFailed?
  {
    Ollama.TestConnection(Config.LLM_MODEL, Ollama.CheckConnection(Config.LLM_MODEL, tags),
                          GenerateResponse(t, server, TEST_QUERY, None, format))
  }
}
