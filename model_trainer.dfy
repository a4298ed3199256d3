/** The few-shot model helper (model_trainer.py): a `ModelTrainer` collects
    instruction/response examples and renders an Ollama Modelfile from its base model,
    a system prompt and the first five examples. Reading the JSON file, writing the
    Modelfile and the console messages are I/O and not modelled: the parsed items
    are a parameter and the file's content is returned. */
module ModelTraining {
  import opened Wrappers
  import opened Text

  const DEFAULT_BASE_MODEL := "llama3.1:8b"

  /** How many examples the Modelfile shows. */
  const FEW_SHOT := 5

  /** The system prompt used when none is given; each of its first two lines ends
      with a space. */
  const DEFAULT_SYSTEM :=
    "You are a helpful AI assistant trained on custom data. \n"
    + "Provide accurate, helpful responses based on your training. \n"
    + "If you're unsure about something, say so honestly."

  /** The fixed parameter and template lines between the `FROM` line and the system
      message. */
  const SETTINGS :=
    "# Custom parameters\n"
    + "PARAMETER temperature 0.7\n"
    + "PARAMETER top_p 0.9\n"
    + "PARAMETER stop \"### Instruction:\"\n"
    + "\n"
    + "# Custom template\n"
    + "TEMPLATE \"\"\"### Instruction:\n"
    + "{{ .Prompt }}\n"
    + "\n"
    + "### Response:\n"
    + "\"\"\""

  /** A training example. */
  datatype Example = Example(instruction: string, response: string)

  /** `item.get(key, "")` on a decoded JSON object whose values are strings. */
  function Field(item: map<string, string>, key: string): (v: string)
    ensures key in item ==> v == item[key]
    ensures key !in item ==> v == ""
  {
    if key in item then item[key] else ""
  }

  /** The examples `load_training_data` adds for the decoded items, in order. */
  function ExamplesOf(items: seq<map<string, string>>): (r: seq<Example>)
    ensures |r| == |items|
    ensures forall i :: 0 <= i < |items| ==>
      r[i] == Example(Field(items[i], "instruction"), Field(items[i], "response"))
  {
    seq(|items|, i requires 0 <= i < |items| => Example(Field(items[i], "instruction"), Field(items[i], "response")))
  }

  /** `system_prompt`, or the default text when it is `None`; an empty prompt is kept. */
  function SystemPrompt(given: Option<string>): (s: string)
    ensures given.Some? ==> s == given.value
    ensures given.None? ==> s == DEFAULT_SYSTEM
  {
    given.GetOr(DEFAULT_SYSTEM)
  }

  function SystemLine(system: string): string {
    "SYSTEM \"\"\"" + system + "\"\"\""
  }

  /** The Modelfile up to and including the training-examples comment line. */
  function Header(base: string, system: string): string {
    "FROM " + base + "\n\n" + SETTINGS + "\n\n# System message\n" + SystemLine(system)
    + "\n\n# Training examples (few-shot learning)\n"
  }

  function UserLine(e: Example): string {
    "MESSAGE user \"" + e.instruction + "\""
  }

  function AssistantLine(e: Example): string {
    "MESSAGE assistant \"" + e.response + "\""
  }

  /** The lines one example adds, between blank-line separators. */
  function Block(e: Example): string {
    "\n" + UserLine(e) + "\n" + AssistantLine(e) + "\n"
  }

  /** `training_data[:5]`: the first five examples, or all when there are fewer. */
  function FewShot(data: seq<Example>): (r: seq<Example>)
    ensures |r| == if |data| < FEW_SHOT then |data| else FEW_SHOT
    ensures r == data[..|r|]
  {
    if |data| <= FEW_SHOT then data else data[..FEW_SHOT]
  }

  function Blocks(examples: seq<Example>): (r: seq<string>)
    ensures |r| == |examples|
    ensures forall i :: 0 <= i < |examples| ==> r[i] == Block(examples[i])
  {
    seq(|examples|, i requires 0 <= i < |examples| => Block(examples[i]))
  }

  /** The content `create_modelfile` writes. */
  function Modelfile(base: string, system: string, data: seq<Example>): string {
    Header(base, system) + Concat(Blocks(FewShot(data)))
  }

  /** The content after the header and the first `n` examples. */
  function ModelfileSoFar(header: string, blocks: seq<string>, n: nat): string
    requires n <= |blocks|
  {
    header + Concat(blocks[..n])
  }

  /** The Modelfile begins with the `FROM` line naming the base model. */
  lemma ModelfileStartsFrom(base: string, system: string, data: seq<Example>)
    ensures IsPrefix("FROM " + base + "\n", Modelfile(base, system, data))
  {
    var m := Modelfile(base, system, data);
    var from := "FROM " + base + "\n";
    assert m == from + ("\n" + SETTINGS + "\n\n# System message\n" + SystemLine(system)
      + "\n\n# Training examples (few-shot learning)\n" + Concat(Blocks(FewShot(data))));
  }

  /** The system prompt appears between triple quotes on the `SYSTEM` line. */
  lemma ModelfileHoldsSystem(base: string, system: string, data: seq<Example>)
    ensures Contains(Modelfile(base, system, data), SystemLine(system))
  {
    var before := "FROM " + base + "\n\n" + SETTINGS + "\n\n# System message\n";
    var after := "\n\n# Training examples (few-shot learning)\n" + Concat(Blocks(FewShot(data)));
    assert Modelfile(base, system, data) == before + (SystemLine(system) + after);
    ContainsSelf(SystemLine(system));
    ContainsLeft(SystemLine(system), after, SystemLine(system));
    ContainsRight(before, SystemLine(system) + after, SystemLine(system));
  }

  /** Example `i` of the first five is rendered right after the header and the
      examples before it, so the examples appear in their stored order. */
  lemma ModelfileExampleAt(base: string, system: string, data: seq<Example>, i: nat)
    requires i < |FewShot(data)|
    ensures i < FEW_SHOT && FewShot(data)[i] == data[i]
    ensures OccursAt(Modelfile(base, system, data), Block(data[i]),
                     |Header(base, system)| + |Concat(Blocks(FewShot(data))[..i])|)
  {
    PrefixedConcatOccursAt(Header(base, system), Blocks(FewShot(data)), i);
  }

  /** An example's block holds its two `MESSAGE` lines. */
  lemma BlockHoldsLines(e: Example)
    ensures Contains(Block(e), UserLine(e)) && Contains(Block(e), AssistantLine(e))
  {
    var user := UserLine(e);
    var assistant := AssistantLine(e);
    assert Block(e)[1..1 + |user|] == user;
    assert OccursAt(Block(e), user, 1);
    assert Block(e)[2 + |user|..2 + |user| + |assistant|] == assistant;
    assert OccursAt(Block(e), assistant, 2 + |user|);
  }

  /** Loading items and rendering shows each of the first five items' instruction on
      a `MESSAGE user` line and its response on a `MESSAGE assistant` line, with ""
      for a missing key. */
  lemma LoadedItemsRendered(base: string, system: string, items: seq<map<string, string>>, i: nat)
    requires i < FEW_SHOT && i < |items|
    ensures Contains(Modelfile(base, system, ExamplesOf(items)),
                     "MESSAGE user \"" + Field(items[i], "instruction") + "\"")
    ensures Contains(Modelfile(base, system, ExamplesOf(items)),
                     "MESSAGE assistant \"" + Field(items[i], "response") + "\"")
  {
    var data := ExamplesOf(items);
    var e := data[i];
    var m := Modelfile(base, system, data);
    ModelfileExampleAt(base, system, data, i);
    var at := |Header(base, system)| + |Concat(Blocks(FewShot(data))[..i])|;
    assert OccursAt(m, Block(e), at);
    BlockHoldsLines(e);
    ContainsTransitive(m, Block(e), UserLine(e));
    ContainsTransitive(m, Block(e), AssistantLine(e));
  }

  class ModelTrainer {
    var baseModel: string
    var trainingData: seq<Example>

    /** `ModelTrainer(base_model)`: no examples yet. */
    constructor (baseModel: string)
      ensures this.baseModel == baseModel && trainingData == []
    {
      this.baseModel := baseModel;
      trainingData := [];
    }

    /** `ModelTrainer()`: the default base model. */
    constructor Default()
      ensures baseModel == DEFAULT_BASE_MODEL && trainingData == []
    {
      baseModel := DEFAULT_BASE_MODEL;
      trainingData := [];
    }

    /** `add_training_example`: one example at the end; the earlier ones stay. */
    method AddTrainingExample(instruction: string, response: string)
      modifies this
      ensures trainingData == old(trainingData) + [Example(instruction, response)]
      ensures baseModel == old(baseModel)
    {
      trainingData := trainingData + [Example(instruction, response)];
    }

    /** `load_training_data` on the decoded items: one example per item, in order. */
    method LoadTrainingData(items: seq<map<string, string>>)
      modifies this
      ensures trainingData == old(trainingData) + ExamplesOf(items)
      ensures baseModel == old(baseModel)
    {
      var i := 0;
      while i < |items|
        invariant 0 <= i <= |items|
        invariant trainingData == old(trainingData) + ExamplesOf(items[..i])
        invariant baseModel == old(baseModel)
      {
        assert ExamplesOf(items[..i + 1]) == ExamplesOf(items[..i]) + [ExamplesOf(items)[i]];
        AddTrainingExample(Field(items[i], "instruction"), Field(items[i], "response"));
        i := i + 1;
      }
      assert items[..|items|] == items;
    }

    /** `create_modelfile`: the file name it writes and returns, and the content it
        writes; the examples are only read. */
    method CreateModelfile(customModelName: string, systemPrompt: Option<string>)
      returns (fileName: string, content: string)
      ensures fileName == "Modelfile-" + customModelName
      ensures content == Modelfile(baseModel, SystemPrompt(systemPrompt), trainingData)
    {
      var system := SystemPrompt(systemPrompt);
      var header := Header(baseModel, system);
      var shown := FewShot(trainingData);
      var blocks := Blocks(shown);
      content := header;
      var i := 0;
      while i < |shown|
        invariant 0 <= i <= |shown|
        invariant content == ModelfileSoFar(header, blocks, i)
      {
        ConcatStep(header, blocks, i);
        content := content + Block(shown[i]);
        i := i + 1;
      }
      assert blocks[..|shown|] == blocks;
      fileName := "Modelfile-" + customModelName;
    }
  }
}
