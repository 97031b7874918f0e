/** The model picker of `ModelSelector.tsx`: the catalogue of models, the
    lookup of the current model, the options handed to the drop-down, the
    context-length label and the details dialog. */
module ModelSelector {
  import opened Wrappers
  import opened Text
  import Sequences
  import SettingsStore

  datatype Speed = Fast | Medium | Slow

  /** Dollars per thousand tokens. */
  datatype Pricing = Pricing(input: real, output: real)

  datatype Model = Model(
    id: string,
    name: string,
    description: string,
    contextLength: nat,
    speed: Speed,
    capabilities: seq<string>,
    pricing: Option<Pricing>,
    isNew: bool,
    isBeta: bool)

  /** The entries of `AVAILABLE_MODELS`, in order. */
  datatype ModelKey = Gpt4Turbo | Gpt4 | Gpt35Turbo | Claude3Opus | Claude3Sonnet | GeminiPro

  const Catalogue: seq<ModelKey> := [Gpt4Turbo, Gpt4, Gpt35Turbo, Claude3Opus, Claude3Sonnet, GeminiPro]

  function ModelId(k: ModelKey): string
  {
    match k
    case Gpt4Turbo => "gpt-4-turbo"
    case Gpt4 => "gpt-4"
    case Gpt35Turbo => "gpt-3.5-turbo"
    case Claude3Opus => "claude-3-opus"
    case Claude3Sonnet => "claude-3-sonnet"
    case GeminiPro => "gemini-pro"
  }

  function ModelName(k: ModelKey): string
  {
    match k
    case Gpt4Turbo => "GPT-4 Turbo"
    case Gpt4 => "GPT-4"
    case Gpt35Turbo => "GPT-3.5 Turbo"
    case Claude3Opus => "Claude 3 Opus"
    case Claude3Sonnet => "Claude 3 Sonnet"
    case GeminiPro => "Gemini Pro"
  }

  function ModelDescription(k: ModelKey): string
  {
    match k
    case Gpt4Turbo => "Most capable model for complex tasks"
    case Gpt4 => "High-quality responses for complex tasks"
    case Gpt35Turbo => "Fast and efficient for most tasks"
    case Claude3Opus => "Exceptional performance on complex tasks"
    case Claude3Sonnet => "Balanced performance and speed"
    case GeminiPro => "Google's advanced reasoning model"
  }

  function Capabilities(k: ModelKey): seq<string>
  {
    match k
    case Gpt4Turbo => ["reasoning", "coding", "analysis", "creativity"]
    case Gpt4 => ["reasoning", "coding", "analysis"]
    case Gpt35Turbo => ["conversation", "writing", "coding"]
    case Claude3Opus => ["reasoning", "analysis", "creativity", "coding"]
    case Claude3Sonnet => ["reasoning", "analysis", "writing"]
    case GeminiPro => ["reasoning", "coding", "multimodal"]
  }

  function ModelOf(k: ModelKey): Model
  {
    var info :=
      match k
      case Gpt4Turbo => (128000, Medium, Pricing(0.01, 0.03), true, false)
      case Gpt4 => (8192, Slow, Pricing(0.03, 0.06), false, false)
      case Gpt35Turbo => (16385, Fast, Pricing(0.0015, 0.002), false, false)
      case Claude3Opus => (200000, Medium, Pricing(0.015, 0.075), true, false)
      case Claude3Sonnet => (200000, Fast, Pricing(0.003, 0.015), false, false)
      case GeminiPro => (32000, Fast, Pricing(0.0005, 0.0015), false, true);
    Model(ModelId(k), ModelName(k), ModelDescription(k), info.0, info.1, Capabilities(k), Some(info.2), info.3, info.4)
  }

  /** The position of a key in the catalogue. */
  function KeyIndex(k: ModelKey): nat
  {
    match k
    case Gpt4Turbo => 0
    case Gpt4 => 1
    case Gpt35Turbo => 2
    case Claude3Opus => 3
    case Claude3Sonnet => 4
    case GeminiPro => 5
  }

  lemma CatalogueIndex(i: nat)
    requires i < |Catalogue|
    ensures KeyIndex(Catalogue[i]) == i
  {
    if i == 0 {
    } else if i == 1 {
    } else if i == 2 {
    } else if i == 3 {
    } else if i == 4 {
    } else {
    }
  }

  /** The models of a list of keys, in order. */
  function Models(keys: seq<ModelKey>): (r: seq<Model>)
    ensures |r| == |keys|
    ensures forall i :: 0 <= i < |keys| ==> r[i] == ModelOf(keys[i])
  {
    if keys == [] then [] else [ModelOf(keys[0])] + Models(keys[1..])
  }

  /** `AVAILABLE_MODELS`. */
  const AvailableModels: seq<Model> := Models(Catalogue)

  /** No two models of the catalogue share an id. */
  lemma ModelIdsDistinct()
    ensures forall i, j :: 0 <= i < j < |AvailableModels| ==> AvailableModels[i].id != AvailableModels[j].id
  {
    forall i, j | 0 <= i < j < |AvailableModels|
      ensures AvailableModels[i].id != AvailableModels[j].id
    {
      IdsDistinctAt(i, j);
    }
  }

  lemma IdsDistinctAt(i: nat, j: nat)
    requires i < j < |Catalogue|
    ensures AvailableModels[i].id != AvailableModels[j].id
  {
    CatalogueIndex(i);
    CatalogueIndex(j);
    KeyIdsDistinct(Catalogue[i], Catalogue[j]);
  }

  lemma KeyIdsDistinct(k1: ModelKey, k2: ModelKey)
    requires k1 != k2
    ensures ModelOf(k1).id != ModelOf(k2).id
  {
    var a, b := ModelId(k1), ModelId(k2);
    if |a| == |b| {
      assert a[0] != b[0];
    }
  }

  // ------------------------------------------------------------ lookup

  function HasId(id: string): Model -> bool
  {
    (m: Model) => m.id == id
  }

  /** `AVAILABLE_MODELS.find(model => model.id === currentModel)`. */
  function SelectedModel(currentModel: string): (r: Option<Model>)
    ensures r.Some? ==> r.value in AvailableModels && r.value.id == currentModel
    ensures r.None? <==> forall j :: 0 <= j < |AvailableModels| ==> AvailableModels[j].id != currentModel
  {
    FoundById(AvailableModels, currentModel);
    Sequences.Find(AvailableModels, HasId(currentModel))
  }

  lemma FoundById(models: seq<Model>, id: string)
    ensures var r := Sequences.Find(models, HasId(id));
            && (r.Some? ==> r.value in models && r.value.id == id)
            && (r.None? <==> forall j :: 0 <= j < |models| ==> models[j].id != id)
  {
    var r := Sequences.Find(models, HasId(id));
    if r.None? {
      forall j | 0 <= j < |models|
        ensures models[j].id != id
      {
        assert !HasId(id)(models[j]);
      }
    } else {
      assert HasId(id)(r.value);
    }
  }

  /** Every model of the catalogue is the one found under its own id. */
  lemma {:induction false} SelectedModelOfCatalogue(i: nat)
    requires i < |AvailableModels|
    ensures SelectedModel(AvailableModels[i].id) == Some(AvailableModels[i])
  {
    ModelIdsDistinct();
    var r := SelectedModel(AvailableModels[i].id);
    assert HasId(AvailableModels[i].id)(AvailableModels[i]);
    var j :| 0 <= j < |AvailableModels| && AvailableModels[j] == r.value;
    assert AvailableModels[j].id == AvailableModels[i].id;
  }

  /** The settings' default model is in the catalogue: GPT-3.5 Turbo with
      a context of 16385 tokens. */
  lemma DefaultModelKnown()
    ensures SelectedModel(SettingsStore.DefaultModel) == Some(ModelOf(Gpt35Turbo))
    ensures ModelOf(Gpt35Turbo).contextLength == 16385
  {
    assert ModelOf(Gpt35Turbo).contextLength == 16385;
    assert Catalogue[2] == Gpt35Turbo;
    assert AvailableModels[2] == ModelOf(Gpt35Turbo);
    assert AvailableModels[2].id == SettingsStore.DefaultModel;
    SelectedModelOfCatalogue(2);
  }

  // ----------------------------------------------------------- options

  /** An entry of `selectOptions`. */
  datatype SelectOption = SelectOption(value: string, title: string, description: string)

  function OptionOf(m: Model): SelectOption
  {
    SelectOption(m.id, m.name, m.description)
  }

  /** `AVAILABLE_MODELS.map(...)`: one option per model, in catalogue
      order. */
  function SelectOptions(): (r: seq<SelectOption>)
    ensures |r| == |AvailableModels|
    ensures forall i :: 0 <= i < |r| ==>
              r[i].value == AvailableModels[i].id && r[i].title == AvailableModels[i].name
              && r[i].description == AvailableModels[i].description
  {
    OptionsOf(AvailableModels)
  }

  function OptionsOf(models: seq<Model>): (r: seq<SelectOption>)
    ensures |r| == |models|
    ensures forall i :: 0 <= i < |r| ==> r[i] == OptionOf(models[i])
  {
    seq(|models|, i requires 0 <= i < |models| => OptionOf(models[i]))
  }

  /** Picking the `i`-th drop-down option makes the `i`-th model the
      selected one, and no two options share a value. */
  lemma OptionSelectsModel(i: nat)
    requires i < |SelectOptions()|
    ensures SelectedModel(SelectOptions()[i].value) == Some(AvailableModels[i])
    ensures forall j :: 0 <= j < |SelectOptions()| && j != i ==> SelectOptions()[j].value != SelectOptions()[i].value
  {
    SelectedModelOfCatalogue(i);
    ModelIdsDistinct();
    forall j | 0 <= j < |SelectOptions()| && j != i
      ensures SelectOptions()[j].value != SelectOptions()[i].value
    {
      if j < i {
        assert AvailableModels[j].id != AvailableModels[i].id;
      } else {
        assert AvailableModels[i].id != AvailableModels[j].id;
      }
    }
  }

  // ---------------------------------------------------- context length

  /** `formatContextLength`: whole thousands followed by "K" from 1000
      on, the plain number below. */
  function FormatContextLength(length: nat): (r: string)
    ensures length >= 1000 <==> r != "" && r[|r| - 1] == 'K'
  {
    if length >= 1000 then NatToString(length / 1000) + "K" else NatToString(length)
  }

  /** The label reads back as the number of whole thousands when it ends
      in "K" and as the number itself otherwise. */
  lemma ContextLengthReadsBack(length: nat)
    ensures length >= 1000 ==>
              ParseInt(FormatContextLength(length)[..|FormatContextLength(length)| - 1]) == Some(length / 1000)
    ensures length < 1000 ==> ParseInt(FormatContextLength(length)) == Some(length)
  {
    var r := FormatContextLength(length);
    if length >= 1000 {
      assert r[..|r| - 1] == NatToString(length / 1000);
      ParseIntOfIntToString(length / 1000);
    } else {
      ParseIntOfIntToString(length);
    }
  }

  /** The catalogue's context lengths as the info bar shows them. */
  lemma ContextLengthExamples()
    ensures FormatContextLength(128000) == "128K"
    ensures FormatContextLength(16385) == "16K"
    ensures FormatContextLength(8192) == "8K"
    ensures FormatContextLength(999) == "999"
  {
    assert NatToString(128) == "128";
    assert NatToString(16) == "16";
    assert NatToString(8) == "8";
    assert NatToString(999) == "999";
  }

  // ------------------------------------------------------------ dialog

  /** The component's own state: whether the comparison dialog is open. */
  class Selector {
    var showModelDetails: bool

    constructor ()
      ensures !showModelDetails
    {
      showModelDetails := false;
    }

    /** The details button, rendered only when `showDetails` is set and the
        current model is in the catalogue. */
    method OpenDetails(showDetails: bool, currentModel: string)
      modifies this
      ensures showModelDetails == (old(showModelDetails) || (showDetails && SelectedModel(currentModel).Some?))
    {
      if showDetails && SelectedModel(currentModel).Some? {
        showModelDetails := true;
      }
    }

    /** The dialog's close button. */
    method CloseDetails()
      modifies this
      ensures !showModelDetails
    {
      showModelDetails := false;
    }

    /** Clicking the `i`-th model of the dialog reports its id to
        `onModelChange` and closes the dialog; the id then selects that
        model. */
    method ChooseModel(i: nat) returns (changedTo: string)
      requires i < |AvailableModels|
      modifies this
      ensures changedTo == AvailableModels[i].id && !showModelDetails
      ensures SelectedModel(changedTo) == Some(AvailableModels[i])
    {
      changedTo := AvailableModels[i].id;
      showModelDetails := false;
      SelectedModelOfCatalogue(i);
    }
  }
}
