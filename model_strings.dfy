/** The `provider:model` string format that every `get_model_string` produces, and its
    reading back: the provider is everything before the first ':'. */
module ModelString {
  import opened Json

  /** The position of the first ':' in `s`. */
  function ColonIndex(s: string): (r: Option<nat>)
    ensures r.None? <==> ':' !in s
    ensures r.Some? ==> r.value < |s| && s[r.value] == ':' && ':' !in s[..r.value]
    decreases |s|
  {
    if s == [] then None
    else if s[0] == ':' then Some(0)
    else
      match ColonIndex(s[1..])
      case None => None
      case Some(i) =>
        assert s[..i + 1] == [s[0]] + s[1..][..i];
        Some(i + 1)
  }

  /** Splits a model string at its first ':' into provider and model name. */
  function ParseModelString(s: string): (r: Option<(string, string)>)
    ensures r.None? <==> ':' !in s
    ensures r.Some? ==> s == r.value.0 + ":" + r.value.1 && ':' !in r.value.0
  {
    match ColonIndex(s)
    case None => None
    case Some(i) =>
      assert s == s[..i] + ":" + s[i + 1..];
      Some((s[..i], s[i + 1..]))
  }

  /** A provider without ':' is read back exactly from `provider:model`, whatever the model name. */
  lemma ParseJoin(provider: string, modelName: string)
    requires ':' !in provider
    ensures ParseModelString(provider + ":" + modelName) == Some((provider, modelName))
  {
    var s := provider + ":" + modelName;
    ColonAfter(provider, modelName);
    assert s[..|provider|] == provider;
    assert s[|provider| + 1..] == modelName;
  }

  /** The first ':' of `provider:rest` is the one after the provider. */
  lemma {:induction false} ColonAfter(provider: string, rest: string)
    requires ':' !in provider
    ensures ColonIndex(provider + ":" + rest) == Some(|provider|)
    decreases |provider|
  {
    if provider != [] {
      var s := provider + ":" + rest;
      assert s[1..] == provider[1..] + ":" + rest;
      ColonAfter(provider[1..], rest);
    }
  }
}

/** `get_model_string` of the shared model utilities (jupyter_ai_agents/utils/model.py):
    Azure OpenAI yields the bare deployment name, and the lookup ignores letter case. */
module ModelUtils {
  import opened Json
  import opened Ascii
  import opened ModelString

  /** The `provider_map` dictionary: the entry stored under `key`, if any. */
  function ProviderMap(key: string): Option<string> {
    match key
    case "openai" => Some("openai")
    case "anthropic" => Some("anthropic")
    case "github-copilot" => Some("openai")
    case "bedrock" => Some("bedrock")
    case "google" => Some("google")
    case "gemini" => Some("google")
    case "groq" => Some("groq")
    case "mistral" => Some("mistral")
    case "cohere" => Some("cohere")
    case _ => None
  }

  /** `provider_map.get(model_provider.lower(), model_provider)` */
  function MappedProvider(provider: string): string {
    ProviderMap(Lower(provider)).GetOr(provider)
  }

  function GetModelString(provider: string, modelName: string): string {
    if Lower(provider) == "azure-openai" then modelName
    else MappedProvider(provider) + ":" + modelName
  }

  /** Outside Azure, the result is read back as the mapped provider and the model name. */
  lemma RoundTrip(provider: string, modelName: string)
    requires Lower(provider) != "azure-openai" && ':' !in provider
    ensures ParseModelString(GetModelString(provider, modelName)) == Some((MappedProvider(provider), modelName))
  {
    var key := Lower(provider);
    assert ProviderMap(key).Some? ==> ':' !in ProviderMap(key).value;
    ParseJoin(MappedProvider(provider), modelName);
  }

  /** Providers that differ only in letter case give the same model string. */
  lemma CaseInsensitive(p: string, q: string, modelName: string)
    requires Lower(p) == Lower(q)
    requires ProviderMap(Lower(p)).Some? || Lower(p) == "azure-openai"
    ensures GetModelString(p, modelName) == GetModelString(q, modelName)
  {
  }

  /** An unknown provider is kept with its own casing. */
  lemma UnknownProviderKept(provider: string, modelName: string)
    requires ProviderMap(Lower(provider)).None? && Lower(provider) != "azure-openai"
    ensures GetModelString(provider, modelName) == provider + ":" + modelName
  {
  }

  /** Azure OpenAI, in any letter case, gives the bare model name. */
  lemma AzureBareName(provider: string, modelName: string)
    requires Lower(provider) == "azure-openai"
    ensures GetModelString(provider, modelName) == modelName
  {
  }

  /** Lower-casing a known provider first changes nothing. */
  lemma LowerCasedProvider(provider: string, modelName: string)
    requires ProviderMap(Lower(provider)).Some? || Lower(provider) == "azure-openai"
    ensures GetModelString(Lower(provider), modelName) == GetModelString(provider, modelName)
  {
    LowerIdempotent(provider);
    CaseInsensitive(Lower(provider), provider, modelName);
  }

  lemma CapitalisedOpenAi(modelName: string)
    ensures GetModelString("OpenAI", modelName) == "openai:" + modelName
  {
    assert Lower("OpenAI") == "openai";
  }

  /** GitHub Copilot uses the openai provider and Gemini the google one. */
  lemma Renamed(modelName: string)
    ensures GetModelString("github-copilot", modelName) == "openai:" + modelName
    ensures GetModelString("gemini", modelName) == "google:" + modelName
  {
    LowerOfLowerCase("github-copilot");
    LowerOfLowerCase("gemini");
  }
}

/** `get_model_string` of the command-line application (jupyter_ai_agents/cli/app.py):
    a case-sensitive lookup in which Azure OpenAI maps to the openai provider. */
module CliApp {
  import opened Json
  import opened ModelString

  /** The `provider_map` dictionary: the entry stored under `key`, if any. */
  function ProviderMap(key: string): Option<string> {
    match key
    case "azure-openai" => Some("openai")
    case "openai" => Some("openai")
    case "anthropic" => Some("anthropic")
    case "github-copilot" => Some("openai")
    case "bedrock" => Some("bedrock")
    case "google" => Some("google")
    case "gemini" => Some("google")
    case "groq" => Some("groq")
    case "mistral" => Some("mistral")
    case "cohere" => Some("cohere")
    case _ => None
  }

  function MappedProvider(provider: string): string {
    ProviderMap(provider).GetOr(provider)
  }

  function GetModelString(provider: string, modelName: string): string {
    MappedProvider(provider) + ":" + modelName
  }

  /** The result is read back as the mapped provider and the model name. */
  lemma RoundTrip(provider: string, modelName: string)
    requires ':' !in provider
    ensures ParseModelString(GetModelString(provider, modelName)) == Some((MappedProvider(provider), modelName))
  {
    ParseJoin(MappedProvider(provider), modelName);
  }

  /** A provider that is not a key, in particular one spelled with other letter cases, is
      kept as given. */
  lemma UnknownProviderKept(provider: string, modelName: string)
    requires ProviderMap(provider).None?
    ensures GetModelString(provider, modelName) == provider + ":" + modelName
  {
  }

  lemma Examples(modelName: string)
    ensures GetModelString("azure-openai", modelName) == "openai:" + modelName
    ensures GetModelString("github-copilot", modelName) == "openai:" + modelName
    ensures GetModelString("gemini", modelName) == "google:" + modelName
    ensures GetModelString("OpenAI", modelName) == "OpenAI:" + modelName
  {
  }
}

/** `get_model_string` of the pydantic command-line application
    (jupyter_ai_agents/cli/pydantic_app.py): a case-sensitive five-entry map without Gemini. */
module PydanticApp {
  import opened Json
  import opened ModelString

  /** The `provider_map` dictionary: the entry stored under `key`, if any. */
  function ProviderMap(key: string): Option<string> {
    match key
    case "azure-openai" => Some("openai")
    case "openai" => Some("openai")
    case "anthropic" => Some("anthropic")
    case "github-copilot" => Some("openai")
    case "bedrock" => Some("bedrock")
    case _ => None
  }

  function MappedProvider(provider: string): string {
    ProviderMap(provider).GetOr(provider)
  }

  function GetModelString(provider: string, modelName: string): string {
    MappedProvider(provider) + ":" + modelName
  }

  /** The result is read back as the mapped provider and the model name. */
  lemma RoundTrip(provider: string, modelName: string)
    requires ':' !in provider
    ensures ParseModelString(GetModelString(provider, modelName)) == Some((MappedProvider(provider), modelName))
  {
    ParseJoin(MappedProvider(provider), modelName);
  }

  /** A provider that is not a key (Gemini among them) is kept as given. */
  lemma UnknownProviderKept(provider: string, modelName: string)
    requires ProviderMap(provider).None?
    ensures GetModelString(provider, modelName) == provider + ":" + modelName
  {
  }

  /** openai, anthropic and bedrock map to themselves. */
  lemma SelfMapped(provider: string, modelName: string)
    requires provider in {"openai", "anthropic", "bedrock"}
    ensures GetModelString(provider, modelName) == provider + ":" + modelName
  {
  }

  lemma Examples(modelName: string)
    ensures GetModelString("azure-openai", modelName) == "openai:" + modelName
    ensures GetModelString("github-copilot", modelName) == "openai:" + modelName
    ensures GetModelString("gemini", modelName) == "gemini:" + modelName
    ensures GetModelString("OpenAI", modelName) == "OpenAI:" + modelName
  {
  }
}

/** `get_model_string` of the interactive shell (jupyter_ai_agents/cli/repl.py): the lookup
    lower-cases the provider, and Azure OpenAI keeps its own name. */
module Repl {
  import opened Json
  import opened Ascii
  import opened ModelString

  /** The `provider_map` dictionary: the entry stored under `key`, if any. */
  function ProviderMap(key: string): Option<string> {
    match key
    case "azure-openai" => Some("azure-openai")
    case "openai" => Some("openai")
    case "anthropic" => Some("anthropic")
    case "github-copilot" => Some("openai")
    case "google" => Some("google")
    case "gemini" => Some("google")
    case "bedrock" => Some("bedrock")
    case "groq" => Some("groq")
    case "mistral" => Some("mistral")
    case "cohere" => Some("cohere")
    case _ => None
  }

  function MappedProvider(provider: string): string {
    ProviderMap(Lower(provider)).GetOr(provider)
  }

  function GetModelString(provider: string, modelName: string): string {
    MappedProvider(provider) + ":" + modelName
  }

  /** The result is read back as the mapped provider and the model name. */
  lemma RoundTrip(provider: string, modelName: string)
    requires ':' !in provider
    ensures ParseModelString(GetModelString(provider, modelName)) == Some((MappedProvider(provider), modelName))
  {
    ParseJoin(MappedProvider(provider), modelName);
  }

  /** Providers that differ only in letter case give the same model string. */
  lemma CaseInsensitive(p: string, q: string, modelName: string)
    requires Lower(p) == Lower(q) && ProviderMap(Lower(p)).Some?
    ensures GetModelString(p, modelName) == GetModelString(q, modelName)
  {
  }

  /** An unknown provider is kept with its own casing. */
  lemma UnknownProviderKept(provider: string, modelName: string)
    requires ProviderMap(Lower(provider)).None?
    ensures GetModelString(provider, modelName) == provider + ":" + modelName
  {
  }

  /** Azure OpenAI, in any letter case, keeps the azure-openai provider. */
  lemma AzureKept(provider: string, modelName: string)
    requires Lower(provider) == "azure-openai"
    ensures GetModelString(provider, modelName) == "azure-openai:" + modelName
  {
  }

  lemma Capitalised(modelName: string)
    ensures GetModelString("Anthropic", modelName) == "anthropic:" + modelName
    ensures GetModelString("OpenAI", modelName) == "openai:" + modelName
  {
    assert MappedProvider("Anthropic") == "anthropic" by {
      assert Lower("Anthropic") == "anthropic";
    }
    assert MappedProvider("OpenAI") == "openai" by {
      assert Lower("OpenAI") == "openai";
    }
  }

  /** GitHub Copilot uses the openai provider and Gemini the google one. */
  lemma Renamed(modelName: string)
    ensures GetModelString("github-copilot", modelName) == "openai:" + modelName
    ensures GetModelString("gemini", modelName) == "google:" + modelName
  {
    LowerOfLowerCase("github-copilot");
    LowerOfLowerCase("gemini");
  }
}

/** Where the four variants disagree, for the same arguments. */
module ProviderDivergence {
  import Ascii
  import ModelUtils
  import CliApp
  import PydanticApp
  import Repl

  /** Azure OpenAI: a bare name, "openai:" twice, and "azure-openai:". */
  lemma AzureOpenAi(modelName: string)
    ensures ModelUtils.GetModelString("azure-openai", modelName) == modelName
    ensures CliApp.GetModelString("azure-openai", modelName) == "openai:" + modelName
    ensures PydanticApp.GetModelString("azure-openai", modelName) == "openai:" + modelName
    ensures Repl.GetModelString("azure-openai", modelName) == "azure-openai:" + modelName
  {
    Ascii.LowerOfLowerCase("azure-openai");
    ModelUtils.AzureBareName("azure-openai", modelName);
    Repl.AzureKept("azure-openai", modelName);
  }

  /** Gemini maps to google everywhere except the pydantic application. */
  lemma Gemini(modelName: string)
    ensures ModelUtils.GetModelString("gemini", modelName) == "google:" + modelName
    ensures CliApp.GetModelString("gemini", modelName) == "google:" + modelName
    ensures PydanticApp.GetModelString("gemini", modelName) == "gemini:" + modelName
    ensures Repl.GetModelString("gemini", modelName) == "google:" + modelName
  {
    ModelUtils.Renamed(modelName);
    Repl.Renamed(modelName);
  }

  /** A capitalised provider is recognised only by the two lower-casing variants. */
  lemma CapitalisedProvider(modelName: string)
    ensures ModelUtils.GetModelString("OpenAI", modelName) == "openai:" + modelName
    ensures CliApp.GetModelString("OpenAI", modelName) == "OpenAI:" + modelName
    ensures PydanticApp.GetModelString("OpenAI", modelName) == "OpenAI:" + modelName
    ensures Repl.GetModelString("OpenAI", modelName) == "openai:" + modelName
  {
    ModelUtils.CapitalisedOpenAi(modelName);
    Repl.Capitalised(modelName);
  }
}
