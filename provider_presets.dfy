/**
 * The built-in table of free-tier provider presets and its two accessors
 * (shared/provider_presets.py).
 */
module ProviderPresets {
  import opened Wrappers
  import opened PyText

  /** One preset; `None` stands for a null field. */
  datatype Preset = Preset(
    name: string,
    baseUrl: string,
    kind: string,
    defaultOllamaMode: Option<string>,
    modelFilter: Option<string>,
    description: string,
    notes: string,
    limits: string,
    apiKeyRequired: bool,
    apiKeyUrl: Option<string>,
    syncIntervalSeconds: int)

  /** What `list_presets` shows for a preset: everything but the Ollama mode and the notes. */
  datatype PresetListing = PresetListing(
    name: string,
    baseUrl: string,
    kind: string,
    modelFilter: Option<string>,
    description: string,
    limits: string,
    apiKeyRequired: bool,
    apiKeyUrl: Option<string>,
    syncIntervalSeconds: int)

  const FreeTierPresets: seq<Preset> := [
    Preset("Groq", "https://api.groq.com/openai/v1", "openai", None, None,
      "Ultra-fast inference with Llama, Mixtral, Gemma models",
      "Leading speed (300+ tokens/sec), 14,400 req/day free tier",
      "14,400 requests/day", true, Some("https://console.groq.com/keys"), 3600),
    Preset("OpenRouter Free", "https://openrouter.ai/api/v1", "openai", None, Some(":free"),
      "30+ free models aggregator (Llama, Gemma, Phi, etc.)",
      "Best for experimentation, no credit card required",
      "Varies by model, generous free tier", true, Some("https://openrouter.ai/keys"), 7200),
    Preset("SambaNova Cloud", "https://api.sambanova.ai/v1", "openai", None, None,
      "Fast inference endpoint with a documented free tier",
      "OpenAI-compatible API and rate limits published by model",
      "Free tier with model-specific rate limits", true, Some("https://cloud.sambanova.ai/apis"), 3600),
    Preset("Google Gemini", "https://generativelanguage.googleapis.com/v1beta/openai", "openai", None, None,
      "Gemini models via OpenAI-compatible endpoint",
      "Free usage tier available for selected models in AI Studio pricing",
      "Free tier (model dependent)", true, Some("https://aistudio.google.com/app/apikey"), 3600),
    Preset("Cerebras", "https://api.cerebras.ai/v1", "openai", None, None,
      "Fastest token generation (Llama 3.3 70B free)",
      "Industry-leading speed, 8K context limit on free tier",
      "Free tier with usage limits", true, Some("https://cloud.cerebras.ai/"), 3600),
    Preset("Mistral AI", "https://api.mistral.ai/v1", "openai", None, None,
      "Mistral models with 1 billion tokens/month free",
      "European AI leader, generous free tier",
      "1 billion tokens/month", true, Some("https://console.mistral.ai/api-keys/"), 3600),
    Preset("Hugging Face", "https://router.huggingface.co", "openai", None, None,
      "Free inference API for thousands of models",
      "Rate-limited, best for testing and small projects",
      "Rate-limited free tier", true, Some("https://huggingface.co/settings/tokens"), 7200),
    Preset("DeepInfra", "https://api.deepinfra.com/v1/openai", "openai", None, None,
      "Fast inference for popular open-source models",
      "Free tier available, good performance",
      "Free tier with usage limits", true, Some("https://deepinfra.com/dash/api_keys"), 3600),
    Preset("Fireworks AI", "https://api.fireworks.ai/inference/v1", "openai", None, None,
      "Production-ready inference for open models",
      "Free credits available, enterprise-grade",
      "Free credits on signup", true, Some("https://fireworks.ai/api-keys"), 3600),
    Preset("Ollama Cloud", "https://ollama.com", "ollama", Some("openai"), None,
      "Cloud-hosted Ollama models (recently launched)",
      "Free tier available, familiar Ollama interface",
      "Free tier with usage limits", true, Some("https://ollama.com/settings/keys"), 7200)
  ]

  /** The first position whose lower-cased name is `key`. */
  function MatchIndex(presets: seq<Preset>, key: string): (r: Option<nat>)
    ensures r.Some? ==> r.value < |presets| && Lower(presets[r.value].name) == key
    ensures r.Some? ==> forall j :: 0 <= j < r.value ==> Lower(presets[j].name) != key
    ensures r.None? <==> forall j :: 0 <= j < |presets| ==> Lower(presets[j].name) != key
  {
    if presets == [] then None
    else if Lower(presets[0].name) == key then Some(0)
    else match MatchIndex(presets[1..], key)
      case None => None
      case Some(i) => Some(i + 1)
  }

  /** The first of `presets` whose name matches `name` ignoring case. */
  function FindPreset(presets: seq<Preset>, name: string): Option<Preset>
  {
    match MatchIndex(presets, Lower(name))
    case None => None
    case Some(i) => Some(presets[i])
  }

  /** The preset `get_preset_by_name` returns. */
  function PresetByName(name: string): Option<Preset>
  {
    FindPreset(FreeTierPresets, name)
  }

  /** The scan of `get_preset_by_name`, over any table. */
  method ScanPresets(presets: seq<Preset>, name: string) returns (r: Option<Preset>)
    ensures r == FindPreset(presets, name)
  {
    r := None;
    var nameLower := Lower(name);
    for i := 0 to |presets|
      invariant forall j :: 0 <= j < i ==> Lower(presets[j].name) != nameLower
    {
      if Lower(presets[i].name) == nameLower {
        ghost var m := MatchIndex(presets, nameLower);
        assert m.Some? && m.value == i;
        return Some(presets[i]);
      }
    }
  }

  /** `get_preset_by_name` (lines 164-170): a case-insensitive scan that returns the first match. */
  method GetPresetByName(name: string) returns (r: Option<Preset>)
    ensures r == PresetByName(name)
  {
    r := ScanPresets(FreeTierPresets, name);
  }

  function Listing(p: Preset): PresetListing
  {
    PresetListing(p.name, p.baseUrl, p.kind, p.modelFilter, p.description, p.limits,
      p.apiKeyRequired, p.apiKeyUrl, p.syncIntervalSeconds)
  }

  /** `list_presets` (lines 173-188). */
  function ListPresets(): (r: seq<PresetListing>)
    ensures |r| == |FreeTierPresets|
    ensures forall i :: 0 <= i < |r| ==> r[i] == Listing(FreeTierPresets[i])
  {
    seq(|FreeTierPresets|, i requires 0 <= i < |FreeTierPresets| => Listing(FreeTierPresets[i]))
  }

  // ---------------------------------------------------------------------
  // Properties of the table
  // ---------------------------------------------------------------------

  /** Every preset is of type openai or ollama, needs a key, and syncs every one or two hours. */
  predicate WellShaped(p: Preset)
  {
    p.kind in {"openai", "ollama"} &&
    p.syncIntervalSeconds in {3600, 7200} &&
    p.apiKeyRequired && p.apiKeyUrl.Some? &&
    (p.defaultOllamaMode.Some? <==> p.kind == "ollama")
  }

  lemma PresetShape(k: int)
    requires 0 <= k < |FreeTierPresets|
    ensures WellShaped(FreeTierPresets[k])
  {
    if k == 0 {
    } else if k == 1 {
    } else if k == 2 {
    } else if k == 3 {
    } else if k == 4 {
    } else if k == 5 {
    } else if k == 6 {
    } else if k == 7 {
    } else if k == 8 {
    } else {
    }
  }

  lemma TableShape()
    ensures forall p :: p in FreeTierPresets ==> WellShaped(p)
  {
    forall p | p in FreeTierPresets ensures WellShaped(p) {
      var k :| 0 <= k < |FreeTierPresets| && FreeTierPresets[k] == p;
      PresetShape(k);
    }
  }

  /**
   * A name's length and lower-cased first letter pick out its position in
   * the table; the inverse that shows no two names agree on both.
   */
  function PositionOfSignature(length: int, first: char): int
  {
    if first == 'g' then (if length == 4 then 0 else 3)
    else if first == 'o' then (if length == 15 then 1 else 9)
    else if first == 's' then 2
    else if first == 'c' then 4
    else if first == 'm' then 5
    else if first == 'h' then 6
    else if first == 'd' then 7
    else 8
  }

  lemma SignatureAt(k: int)
    requires 0 <= k < |FreeTierPresets|
    ensures FreeTierPresets[k].name != []
    ensures PositionOfSignature(|FreeTierPresets[k].name|, LowerChar(FreeTierPresets[k].name[0])) == k
  {
    if k == 0 {
    } else if k == 1 {
    } else if k == 2 {
    } else if k == 3 {
    } else if k == 4 {
    } else if k == 5 {
    } else if k == 6 {
    } else if k == 7 {
    } else if k == 8 {
    } else {
    }
  }

  /** No two presets have names that differ only in case. */
  lemma NamesDistinctIgnoringCase(i: int, j: int)
    requires 0 <= i < |FreeTierPresets| && 0 <= j < |FreeTierPresets|
    requires Lower(FreeTierPresets[i].name) == Lower(FreeTierPresets[j].name)
    ensures i == j
  {
    var a, b := FreeTierPresets[i].name, FreeTierPresets[j].name;
    SignatureAt(i);
    SignatureAt(j);
    assert |a| == |Lower(a)| == |Lower(b)| == |b|;
    assert LowerChar(a[0]) == Lower(a)[0] == Lower(b)[0] == LowerChar(b[0]);
  }

  /** Looking up any listed name, in any case, returns that preset. */
  lemma EveryPresetFound(k: int, name: string)
    requires 0 <= k < |FreeTierPresets|
    requires Lower(name) == Lower(FreeTierPresets[k].name)
    ensures PresetByName(name) == Some(FreeTierPresets[k])
  {
    var m := MatchIndex(FreeTierPresets, Lower(name));
    if m.Some? {
      NamesDistinctIgnoringCase(m.value, k);
    }
  }

  /** The lookup ignores case: a name and its lower-cased form find the same preset. */
  lemma LookupIgnoresCase(name: string)
    ensures PresetByName(Lower(name)) == PresetByName(name)
  {
    LowerIdempotent(name);
  }

  /** Every listed entry's name finds the preset it was listed from. */
  lemma ListingRoundTrip(i: int)
    requires 0 <= i < |ListPresets()|
    ensures PresetByName(ListPresets()[i].name).Some?
    ensures Listing(PresetByName(ListPresets()[i].name).value) == ListPresets()[i]
  {
    EveryPresetFound(i, FreeTierPresets[i].name);
  }
}
