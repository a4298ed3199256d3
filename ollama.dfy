/** The part of `OfflineLLM` that both handler variants (llm_handler_optimized.py and
    llm_handler_backup.py) share word for word: the request payload, the mapping of an
    HTTP outcome to a result record, model-name matching against `/api/tags`, and
    `test_connection`. The Ollama server is a collaborator: each call is an
    `HttpOutcome` value. */
module Ollama {
  import opened Wrappers
  import opened Text
  import ContextDocs

  /** How an HTTP call ended: a response with its status code, its text and its body
      read as JSON (or the decoding error), a timeout, or another request error. Each
      error carries its `str()`. */
  datatype HttpOutcome<B> =
    | Completed(status: nat, text: string, json: Result<B, string>)
    | TimedOut(message: string)
    | Raised(message: string)

  /** The JSON keys of a `/api/generate` answer the handler reads. */
  datatype GenerateBody = GenerateBody(response: Option<string>, promptEvalCount: Option<int>, evalCount: Option<int>)

  /** One value of the `options` object of a generate request. */
  datatype OptionValue = Number(number: real) | Integer(integer: int) | Flag(flag: bool) | Words(words: seq<string>)

  /** The JSON payload of a generate request. */
  datatype GeneratePayload = GeneratePayload(model: string, prompt: string, stream: bool, options: seq<(string, OptionValue)>)

  /** The Ollama server: what a POST of `payload` with a timeout in seconds comes back with. */
  type Server = (GeneratePayload, nat) -> HttpOutcome<GenerateBody>

  /** The dictionary `generate_response` returns: `success` is true exactly for `Answered`. */
  datatype Reply =
    | Answered(response: string, model: string, contextUsed: nat, promptTokens: int, responseTokens: int)
    | Apology(error: string, response: string)

  /** `generate_response(user_input, context_docs=...)` of whichever handler is
      loaded: its reply, or the message of the exception it raised. */
  type Generator = (string, Option<seq<ContextDocs.ContextDoc>>) -> Result<Reply, string>

  const HTTP_ERROR_APOLOGY := "Sorry, I encountered an error while generating a response."
  const TIMEOUT_APOLOGY := "Sorry, the request took too long to process. Please try again."
  const UNEXPECTED_APOLOGY := "Sorry, I encountered an unexpected error. Please try again."

  /** `len(context_docs) if context_docs else 0`. */
  function ContextCount(docs: Option<seq<ContextDocs.ContextDoc>>): (n: nat)
    ensures docs.None? ==> n == 0
    ensures docs.Some? ==> n == |docs.value|
  {
    match docs
    case None => 0
    case Some(d) => |d|
  }

  /** The result record of `generate_response` for the server's outcome: success with
      the stripped answer on a 200 whose body decodes; otherwise one of three fixed
      apologies. Nothing is raised. */
  function MapGenerate(model: string, contextUsed: nat, outcome: HttpOutcome<GenerateBody>): (r: Reply)
    ensures r.Answered? <==> outcome.Completed? && outcome.status == 200 && outcome.json.Success?
    ensures r.Answered? ==>
      var raw := outcome.json.value.response.GetOr("");
      && r.model == model && r.contextUsed == contextUsed
      && (exists i :: StrippedAt(raw, r.response, i))
      && (r.response == [] || (!IsSpace(r.response[0]) && !IsSpace(r.response[|r.response| - 1])))
      && r.promptTokens == outcome.json.value.promptEvalCount.GetOr(0)
      && r.responseTokens == outcome.json.value.evalCount.GetOr(0)
    ensures outcome.Completed? && outcome.status != 200 ==>
      r == Apology("HTTP " + NatToString(outcome.status) + ": " + outcome.text, HTTP_ERROR_APOLOGY)
    ensures outcome.TimedOut? ==> r == Apology("Request timed out", TIMEOUT_APOLOGY)
    ensures outcome.Raised? ==> r == Apology(outcome.message, UNEXPECTED_APOLOGY)
    ensures outcome.Completed? && outcome.status == 200 && outcome.json.Failure? ==>
      r == Apology(outcome.json.error, UNEXPECTED_APOLOGY)
  {
    match outcome
    case Completed(status, text, json) =>
      if status != 200 then Apology("HTTP " + NatToString(status) + ": " + text, HTTP_ERROR_APOLOGY)
      else
        (match json
         case Failure(e) => Apology(e, UNEXPECTED_APOLOGY)
         case Success(body) =>
           Answered(Strip(body.response.GetOr("")), model, contextUsed,
                    body.promptEvalCount.GetOr(0), body.evalCount.GetOr(0)))
    case TimedOut(_) => Apology("Request timed out", TIMEOUT_APOLOGY)
    case Raised(e) => Apology(e, UNEXPECTED_APOLOGY)
  }

  /** A failed reply always carries one of the three fixed apologies, and the apology
      tells the three failure kinds apart. */
  lemma ApologyIdentifiesFailure(model: string, contextUsed: nat, outcome: HttpOutcome<GenerateBody>)
    requires MapGenerate(model, contextUsed, outcome).Apology?
    ensures var r := MapGenerate(model, contextUsed, outcome);
      && (r.response == HTTP_ERROR_APOLOGY <==> outcome.Completed? && outcome.status != 200)
      && (r.response == TIMEOUT_APOLOGY <==> outcome.TimedOut?)
      && (r.response == UNEXPECTED_APOLOGY <==> outcome.Raised? || (outcome.Completed? && outcome.status == 200))
  {
    assert |HTTP_ERROR_APOLOGY| == 58 && |TIMEOUT_APOLOGY| == 62 && |UNEXPECTED_APOLOGY| == 59;
  }

  /** The status code can be read back from the error of a non-200 reply: it is the
      run of digits after "HTTP ". */
  lemma HttpErrorNamesStatus(model: string, contextUsed: nat, status: nat, text: string, json: Result<GenerateBody, string>)
    requires status != 200
    ensures var e := MapGenerate(model, contextUsed, Completed(status, text, json)).error;
      var digits := NatToString(status);
      && IsPrefix("HTTP ", e)
      && |e| >= 5 + |digits| + 2
      && e[5..5 + |digits|] == digits
      && e[5 + |digits|..5 + |digits| + 2] == ": "
      && ParseDigits(e[5..5 + |digits|]) == status
  {
    var digits := NatToString(status);
    var e := "HTTP " + digits + ": " + text;
    assert MapGenerate(model, contextUsed, Completed(status, text, json)).error == e;
    var head := "HTTP " + digits;
    assert e == head + (": " + text);
    assert head[5..] == digits;
    assert e[5..5 + |digits|] == head[5..];
    assert e[5 + |digits|..5 + |digits| + 2] == ": ";
    NatToStringRoundTrip(status);
  }

  /** An entry of the `models` list of `/api/tags`; `name` may be missing. */
  datatype TagEntry = TagEntry(name: Option<string>)

  /** The body of `/api/tags`; `models` may be missing. */
  datatype TagsBody = TagsBody(models: Option<seq<TagEntry>>)

  /** `response.json().get("models", [])`. */
  function Entries(body: TagsBody): seq<TagEntry> {
    body.models.GetOr([])
  }

  predicate AllNamed(entries: seq<TagEntry>) {
    forall i :: 0 <= i < |entries| ==> entries[i].name.Some?
  }

  /** `[model["name"] for model in models]`, when no entry lacks its name. */
  function Names(entries: seq<TagEntry>): (r: seq<string>)
    requires AllNamed(entries)
    ensures |r| == |entries|
    ensures forall i :: 0 <= i < |entries| ==> entries[i].name == Some(r[i])
  {
    seq(|entries|, i requires 0 <= i < |entries| => entries[i].name.value)
  }

  /** `[m.split(":")[0] for m in names]`. */
  function ShortNames(names: seq<string>): (r: seq<string>)
    ensures |r| == |names|
    ensures forall i :: 0 <= i < |names| ==> ':' !in r[i] && IsPrefix(r[i], names[i])
  {
    seq(|names|, i requires 0 <= i < |names| => BeforeColon(names[i]))
  }

  /** `model in ShortNames(names)`: some available name, cut at its first colon, is the model. */
  predicate ModelLoaded(model: string, names: seq<string>) {
    model in ShortNames(names)
  }

  /** A colon-free model is loaded exactly when the server lists it by its full name
      `model` or as some `model:tag`. */
  lemma ModelLoadedMeaning(model: string, names: seq<string>)
    requires ':' !in model
    ensures ModelLoaded(model, names) <==>
      exists i :: 0 <= i < |names| && (names[i] == model || IsPrefix(model + ":", names[i]))
  {
    var short := ShortNames(names);
    if ModelLoaded(model, names) {
      var i :| 0 <= i < |short| && short[i] == model;
      if |model| < |names[i]| {
        assert names[i][|model|] == ':';
        assert names[i][..|model| + 1] == model + ":";
      } else {
        assert names[i] == model;
      }
    }
    if exists i :: 0 <= i < |names| && (names[i] == model || IsPrefix(model + ":", names[i])) {
      var i :| 0 <= i < |names| && (names[i] == model || IsPrefix(model + ":", names[i]));
      if names[i] == model {
        ColonFreeCut(model);
      } else {
        ColonCut(model, names[i]);
      }
      assert short[i] == model;
    }
  }

  lemma {:induction false} ColonFreeCut(s: string)
    requires ':' !in s
    ensures BeforeColon(s) == s
  {
    if s != [] {
      ColonFreeCut(s[1..]);
    }
  }

  lemma {:induction false} ColonCut(model: string, name: string)
    requires ':' !in model && IsPrefix(model + ":", name)
    ensures BeforeColon(name) == model
  {
    if model == [] {
      assert name[0] == ':';
    } else {
      var m := model + ":";
      assert name[..|m|] == m;
      assert name[0] == model[0] && model[0] != ':';
      assert m[1..] == model[1..] + ":";
      assert name[1..][..|m| - 1] == name[..|m|][1..];
      ColonCut(model[1..], name[1..]);
      assert [model[0]] + model[1..] == model;
    }
  }

  /** A model name holding a colon is never reported as loaded, whatever the server lists. */
  lemma ColonNameNeverLoaded(model: string, names: seq<string>)
    requires ':' in model
    ensures !ModelLoaded(model, names)
  {
    var short := ShortNames(names);
    forall i | 0 <= i < |short|
      ensures short[i] != model
    {
      assert ':' !in short[i];
    }
  }

  /** `_check_ollama_connection`: true when the tags call answers 200 and the model is
      among the short names. A request error, a body that does not decode or another
      status gives false. An entry without a name raises `KeyError('name')`, which is
      not a request error and escapes (`Failure`). */
  function CheckConnection(model: string, outcome: HttpOutcome<TagsBody>): (r: Result<bool, string>)
    ensures r.Failure? <==>
      (outcome.Completed? && outcome.status == 200 && outcome.json.Success? && !AllNamed(Entries(outcome.json.value)))
    ensures r.Failure? ==> r.error == "'name'"
    ensures r == Success(true) <==>
      (outcome.Completed? && outcome.status == 200 && outcome.json.Success?
       && AllNamed(Entries(outcome.json.value)) && ModelLoaded(model, Names(Entries(outcome.json.value))))
  {
    match outcome
    case Completed(status, _, json) =>
      if status != 200 then Success(false)
      else
        (match json
         case Failure(_) => Success(false)
         case Success(body) =>
           var entries := Entries(body);
           if !AllNamed(entries) then Failure("'name'")
           else Success(ModelLoaded(model, Names(entries))))
    case TimedOut(_) => Success(false)
    case Raised(_) => Success(false)
  }

  /** The dictionary `check_model_availability` returns. */
  datatype Availability =
    | Available(currentModel: string, availableModels: seq<string>, modelLoaded: bool)
    | Unavailable(error: string, currentModel: string)

  /** `check_model_availability`: available exactly when the tags call answers 200 with
      a decodable body whose entries all have names; every exception is caught. */
  function CheckModelAvailability(model: string, outcome: HttpOutcome<TagsBody>): (r: Availability)
    ensures r.currentModel == model
    ensures r.Available? <==>
      (outcome.Completed? && outcome.status == 200 && outcome.json.Success? && AllNamed(Entries(outcome.json.value)))
    ensures r.Available? ==>
      (r.availableModels == Names(Entries(outcome.json.value))
       && (r.modelLoaded <==> exists i :: 0 <= i < |r.availableModels| && BeforeColon(r.availableModels[i]) == model))
    ensures outcome.Completed? && outcome.status != 200 ==> r.error == "HTTP " + NatToString(outcome.status)
    ensures !outcome.Completed? ==> r.error == outcome.message
  {
    match outcome
    case Completed(status, _, json) =>
      if status != 200 then Unavailable("HTTP " + NatToString(status), model)
      else
        (match json
         case Failure(e) => Unavailable(e, model)
         case Success(body) =>
           var entries := Entries(body);
           if !AllNamed(entries) then Unavailable("'name'", model)
           else
             var names := Names(entries);
             assert ModelLoaded(model, names) <==> exists i :: 0 <= i < |names| && BeforeColon(names[i]) == model by {
               var short := ShortNames(names);
               if ModelLoaded(model, names) {
                 var i :| 0 <= i < |short| && short[i] == model;
                 assert BeforeColon(names[i]) == model;
               }
             }
             Available(model, names, ModelLoaded(model, names)))
    case TimedOut(e) => Unavailable(e, model)
    case Raised(e) => Unavailable(e, model)
  }

  /** Availability and the connection check agree: the connection check succeeds
      exactly when the availability report is positive and says the model is loaded. */
  lemma ConnectionAgreesWithAvailability(model: string, outcome: HttpOutcome<TagsBody>)
    ensures CheckConnection(model, outcome) == Success(true) <==>
      (CheckModelAvailability(model, outcome).Available? && CheckModelAvailability(model, outcome).modelLoaded)
  {
  }

  /** A model name holding a colon is never reported loaded, by either check. */
  lemma ColonModelNeverConnects(model: string, outcome: HttpOutcome<TagsBody>)
    requires ':' in model
    ensures CheckConnection(model, outcome) != Success(true)
    ensures CheckModelAvailability(model, outcome).Available? ==> !CheckModelAvailability(model, outcome).modelLoaded
  {
    if outcome.Completed? && outcome.status == 200 && outcome.json.Success? && AllNamed(Entries(outcome.json.value)) {
      ColonNameNeverLoaded(model, Names(Entries(outcome.json.value)));
    }
  }

  /** The dictionary `test_connection` returns. */
  datatype TestReport =
    | NotConnected(message: string, suggestions: seq<string>)
    | Probed(success: bool, message: string, modelResponse: string, error: Option<string>)
    | TestFailed(message: string, cause: string)

  function Suggestions(model: string): seq<string> {
    ["1. Install Ollama from https://ollama.ai/",
     "2. Run 'ollama pull " + model + "' to download the model",
     "3. Ensure Ollama is running on the default port (11434)"]
  }

  /** `test_connection`, given the connection check and the reply to the variant's test
      query: no probe when the check is false, and a report of the probe otherwise; an
      exception from the check becomes a failed report. */
  function TestConnection(model: string, check: Result<bool, string>, probe: Reply): (r: TestReport)
    ensures check == Success(false) ==>
      r == NotConnected("Cannot connect to Ollama. Please ensure Ollama is running.", Suggestions(model))
      && |r.suggestions| == 3
    ensures check == Success(true) ==>
      (r.Probed? && (r.success <==> probe.Answered?)
       && r.modelResponse == probe.response
       && (r.message == "Connection successful!" <==> probe.Answered?)
       && (r.error.Some? <==> probe.Apology?))
    ensures check.Failure? ==> r == TestFailed("Connection test failed: " + check.error, check.error)
  {
    match check
    case Failure(e) => TestFailed("Connection test failed: " + e, e)
    case Success(connected) =>
      if !connected then NotConnected("Cannot connect to Ollama. Please ensure Ollama is running.", Suggestions(model))
      else
        match probe
        case Answered(response, _, _, _, _) => Probed(true, "Connection successful!", response, None)
        case Apology(e, response) => Probed(false, "Connection failed", response, Some(e))
  }
}
