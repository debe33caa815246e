/** The provider adapters and their factory (services/ai_providers.py).

    An adapter is a value: its fields are set once by the constructor and never
    change. The HTTP exchange is not modelled; each call takes the reply it
    received as an input (`Reply`), so every adapter operation is a function of
    its arguments and that reply. */
module Providers {
  import opened Wrappers
  import opened PyStr

  /** The five adapter classes. */
  datatype ProviderKind = OpenAI | Anthropic | GoogleAI | Groq | Ollama

  // ---------------------------------------------------------------------------
  // The static registry: AIProviderFactory.PROVIDERS and MODELS
  // ---------------------------------------------------------------------------

  /** `PROVIDERS`: registry key to adapter class. */
  const ProviderClasses: map<string, ProviderKind> :=
    map["openai" := OpenAI, "anthropic" := Anthropic, "google" := GoogleAI,
        "groq" := Groq, "ollama" := Ollama]

  /** `MODELS`: registry key to the model ids that key accepts. */
  const ModelLists: map<string, seq<string>> :=
    map["openai" := ["gpt-4", "gpt-3.5-turbo", "gpt-4-turbo-preview"],
        "anthropic" := ["claude-3-sonnet-20240229", "claude-3-haiku-20240307"],
        "google" := ["gemini-pro", "gemini-pro-vision"],
        "groq" := ["llama3-8b-8192", "mixtral-8x7b-32768", "gemma-7b-it"],
        "ollama" := ["llama2", "mistral", "codellama", "vicuna"]]

  /** The registry key under which each adapter class is listed. */
  function RegistryKey(k: ProviderKind): string {
    match k
    case OpenAI => "openai"
    case Anthropic => "anthropic"
    case GoogleAI => "google"
    case Groq => "groq"
    case Ollama => "ollama"
  }

  /** The model list of each adapter class, per kind. */
  function Models(k: ProviderKind): seq<string> {
    match k
    case OpenAI => ["gpt-4", "gpt-3.5-turbo", "gpt-4-turbo-preview"]
    case Anthropic => ["claude-3-sonnet-20240229", "claude-3-haiku-20240307"]
    case GoogleAI => ["gemini-pro", "gemini-pro-vision"]
    case Groq => ["llama3-8b-8192", "mixtral-8x7b-32768", "gemma-7b-it"]
    case Ollama => ["llama2", "mistral", "codellama", "vicuna"]
  }

  /** The registry is exactly one row per adapter class: the keys of both
      tables are the five registry keys, each naming its class and its list. */
  lemma RegistryRows()
    ensures ProviderClasses.Keys == ModelLists.Keys == {"openai", "anthropic", "google", "groq", "ollama"}
    ensures forall k: ProviderKind :: RegistryKey(k) in ProviderClasses && ProviderClasses[RegistryKey(k)] == k
    ensures forall k: ProviderKind :: ModelLists[RegistryKey(k)] == Models(k)
  {
  }

  /** A name is a registry key exactly when some class is listed under it,
      and the class listed under a key is the one whose key it is. */
  lemma RegistryLookup(name: string)
    ensures name in ProviderClasses <==> exists k: ProviderKind :: RegistryKey(k) == name
    ensures name in ProviderClasses ==> RegistryKey(ProviderClasses[name]) == name
    ensures name in ProviderClasses ==> name in ModelLists && ModelLists[name] == Models(ProviderClasses[name])
  {
    RegistryRows();
    if name in ProviderClasses {
      assert name in {"openai", "anthropic", "google", "groq", "ollama"};
      assert RegistryKey(ProviderClasses[name]) == name;
    }
  }

  /** `validate_provider_config(provider_name, model)`: the name is a
      registry key and the model is on that key's list. */
  function ValidateProviderConfig(name: string, model: string): (ok: bool)
    ensures ok <==> name in ProviderClasses && model in Models(ProviderClasses[name])
  {
    RegistryLookup(name);
    name in ProviderClasses && name in ModelLists && model in ModelLists[name]
  }

  /** A pair validates exactly when some adapter class is registered under
      the name and lists the model. */
  lemma ValidateIff(name: string, model: string)
    ensures ValidateProviderConfig(name, model) <==> exists k: ProviderKind :: RegistryKey(k) == name && model in Models(k)
  {
    RegistryLookup(name);
    if exists k: ProviderKind :: RegistryKey(k) == name && model in Models(k) {
      var k: ProviderKind :| RegistryKey(k) == name && model in Models(k);
      RegistryRows();
      assert ProviderClasses[name] == k;
    }
  }

  /** The validation examples: a listed pair passes, an unlisted model or an
      unknown provider fails. */
  lemma ValidationExamples(model: string)
    ensures ValidateProviderConfig("openai", "gpt-3.5-turbo")
    ensures !ValidateProviderConfig("openai", "not-a-model")
    ensures !ValidateProviderConfig("unknown", model)
  {
    assert RegistryKey(OpenAI) == "openai" && "gpt-3.5-turbo" in Models(OpenAI);
  }

  /** `get_available_providers()`: a copy of `MODELS`. */
  function AvailableProviders(): (r: map<string, seq<string>>)
    ensures forall k: ProviderKind :: RegistryKey(k) in r && r[RegistryKey(k)] == Models(k)
    ensures forall name :: name in r ==> exists k: ProviderKind :: RegistryKey(k) == name
  {
    RegistryRows();
    assert forall name :: name in ModelLists ==> RegistryKey(ProviderClasses[name]) == name;
    ModelLists
  }

  // ---------------------------------------------------------------------------
  // Adapter construction
  // ---------------------------------------------------------------------------

  /** The class name of each adapter, without its common "Provider" suffix. */
  function ClassStem(k: ProviderKind): string {
    match k
    case OpenAI => "OpenAI"
    case Anthropic => "Anthropic"
    case GoogleAI => "GoogleAI"
    case Groq => "Groq"
    case Ollama => "Ollama"
  }

  /** The class name of each adapter. */
  function ClassName(k: ProviderKind): string {
    ClassStem(k) + "Provider"
  }

  /** `provider_name` of each adapter class; note "googleai", not the
      registry key "google". */
  function ProviderName(k: ProviderKind): string {
    match k
    case OpenAI => "openai"
    case Anthropic => "anthropic"
    case GoogleAI => "googleai"
    case Groq => "groq"
    case Ollama => "ollama"
  }

  /** How the base constructor derives `provider_name`: the class name with
      "Provider" removed, lower-cased. */
  function DerivedName(className: string): string {
    Lower(ReplaceAll(className, "Provider", ""))
  }

  /** Removing "Provider" from a class name that has no other capital P
      leaves the part before the suffix. */
  lemma {:induction false} DropProviderSuffix(x: string)
    requires 'P' !in x
    ensures ReplaceAll(x + "Provider", "Provider", "") == x
  {
    if x == [] {
      assert ([] + "Provider")[8..] == [];
    } else {
      DropProviderSuffix(x[1..]);
      assert (x + "Provider")[1..] == x[1..] + "Provider";
      assert (x + "Provider")[..8][0] == x[0];
    }
  }

  /** The derivation gives each class its listed name. */
  lemma ProviderNames(k: ProviderKind)
    ensures DerivedName(ClassName(k)) == ProviderName(k)
  {
    StemHasNoP(k);
    DropProviderSuffix(ClassStem(k));
    LowerStem(k);
  }

  lemma StemHasNoP(k: ProviderKind)
    ensures 'P' !in ClassStem(k)
  {
  }

  lemma LowerStem(k: ProviderKind)
    ensures Lower(ClassStem(k)) == ProviderName(k)
  {
    match k
    case OpenAI => assert Lower("OpenAI") == "openai";
    case Anthropic => assert Lower("Anthropic") == "anthropic";
    case GoogleAI => assert Lower("GoogleAI") == "googleai";
    case Groq => assert Lower("Groq") == "groq";
    case Ollama => assert Lower("Ollama") == "ollama";
  }

  /** Each constructor's default `model` argument. */
  function DefaultModel(k: ProviderKind): string {
    match k
    case OpenAI => "gpt-3.5-turbo"
    case Anthropic => "claude-3-sonnet-20240229"
    case GoogleAI => "gemini-pro"
    case Groq => "llama3-8b-8192"
    case Ollama => "llama2"
  }

  /** Each adapter's endpoint when no custom one is given. */
  function DefaultBaseUrl(k: ProviderKind): string {
    match k
    case OpenAI => "https://api.openai.com/v1"
    case Anthropic => "https://api.anthropic.com/v1"
    case GoogleAI => "https://generativelanguage.googleapis.com/v1"
    case Groq => "https://api.groq.com/openai/v1"
    case Ollama => "http://localhost:11434"
  }

  /** An adapter instance; the fields are those `__init__` sets. */
  datatype Adapter = Adapter(
    kind: ProviderKind,
    apiKey: string,
    model: string,
    customEndpoint: Option<string>,
    providerName: string,
    baseUrl: string)

  /** Python's truthiness of an optional string: present and non-empty. */
  predicate Truthy(s: Option<string>) {
    s.Some? && s.value != []
  }

  /** `<Class>(api_key, model, custom_endpoint)`. */
  function NewAdapter(k: ProviderKind, apiKey: string, model: string, customEndpoint: Option<string>): (a: Adapter)
    ensures a.kind == k && a.model == model && a.customEndpoint == customEndpoint
    ensures a.providerName == ProviderName(k)
    ensures a.baseUrl == if Truthy(customEndpoint) then customEndpoint.value else DefaultBaseUrl(k)
    ensures a.apiKey == if k == Ollama && apiKey == [] then "local" else apiKey
  {
    var key := if k == Ollama then (if apiKey != [] then apiKey else "local") else apiKey;
    var url := if customEndpoint.Some? && customEndpoint.value != [] then customEndpoint.value else DefaultBaseUrl(k);
    Adapter(k, key, model, customEndpoint, ProviderName(k), url)
  }

  /** Every constructor's default model passes validation against its own
      registry list. */
  lemma DefaultModelsValid(k: ProviderKind)
    ensures ValidateProviderConfig(RegistryKey(k), DefaultModel(k))
  {
    assert DefaultModel(k) in Models(k);
  }

  /** `create_provider(provider_name, api_key, model, custom_endpoint)`: an
      unknown name raises; a known one builds its class with the arguments as
      given (the model is not checked here). */
  function CreateProvider(name: string, apiKey: string, model: string, customEndpoint: Option<string>): (r: Result<Adapter>)
    ensures r.Err? <==> name !in ProviderClasses
    ensures r.Err? ==> r.error == "Unsupported provider: " + name
    ensures r.Ok? ==> RegistryKey(r.value.kind) == name && r.value == NewAdapter(r.value.kind, apiKey, model, customEndpoint)
  {
    RegistryLookup(name);
    if name !in ProviderClasses then Err("Unsupported provider: " + name)
    else Ok(NewAdapter(ProviderClasses[name], apiKey, model, customEndpoint))
  }

  /** The factory refuses exactly the names no adapter class is registered
      under. */
  lemma CreateRefusesUnknown(name: string, apiKey: string, model: string, customEndpoint: Option<string>)
    ensures CreateProvider(name, apiKey, model, customEndpoint).Err? <==> forall k: ProviderKind :: RegistryKey(k) != name
  {
    RegistryLookup(name);
  }

  // ---------------------------------------------------------------------------
  // The network reply, as an input
  // ---------------------------------------------------------------------------

  /** What decoding the reply body produced: the text the call looks for, or
      the error decoding raised together with the raw `response.text`. */
  datatype Body = Decoded(text: string) | Undecodable(raw: string, error: string)

  /** The outcome of the one HTTP request a call makes. */
  datatype Reply = Http(status: int, body: Body) | Raised(error: string)

  // ---------------------------------------------------------------------------
  // generate_summary
  // ---------------------------------------------------------------------------

  /** The part of the inputs that reaches the request. The candidate name is
      not part of any adapter's prompt. */
  datatype SummaryRequest = SummaryRequest(model: string, jobExcerpt: string, resumeExcerpt: string)

  const JobExcerptLimit: nat := 1200
  const ResumeExcerptLimit: nat := 1500

  /** The request every adapter builds: `job_description[:1200]` and
      `resume_text[:1500]`, cut hard with nothing appended. */
  function BuildSummaryRequest(a: Adapter, jobDescription: string, resumeText: string): (q: SummaryRequest)
    ensures q.model == a.model
    ensures q.jobExcerpt <= jobDescription
    ensures |q.jobExcerpt| == if |jobDescription| < JobExcerptLimit then |jobDescription| else JobExcerptLimit
    ensures q.resumeExcerpt <= resumeText
    ensures |q.resumeExcerpt| == if |resumeText| < ResumeExcerptLimit then |resumeText| else ResumeExcerptLimit
  {
    SummaryRequest(a.model, Prefix(jobDescription, JobExcerptLimit), Prefix(resumeText, ResumeExcerptLimit))
  }

  /** `generate_summary(job_description, resume_text, candidate_name)` given
      the reply to the request it sends: the request holds the two hard
      prefixes, whatever the reply. It never raises: a 200 reply yields the
      generated text stripped; any other status yields
      "Error generating summary: <status>"; a raised request, or a 200 reply
      whose body does not decode, yields "Unable to generate AI summary: <e>". */
  function GenerateSummary(a: Adapter, jobDescription: string, resumeText: string, candidateName: string, reply: Reply)
    : (r: (SummaryRequest, string))
    ensures r.0.model == a.model
    ensures r.0.jobExcerpt <= jobDescription
    ensures |r.0.jobExcerpt| == if |jobDescription| < JobExcerptLimit then |jobDescription| else JobExcerptLimit
    ensures r.0.resumeExcerpt <= resumeText
    ensures |r.0.resumeExcerpt| == if |resumeText| < ResumeExcerptLimit then |resumeText| else ResumeExcerptLimit
    ensures reply.Http? && reply.status == 200 && reply.body.Decoded? ==> StrippedFrom(r.1, reply.body.text)
    ensures reply.Http? && reply.status != 200 ==> r.1 == "Error generating summary: " + IntToString(reply.status)
    ensures reply.Raised? ==> r.1 == "Unable to generate AI summary: " + reply.error
    ensures reply.Http? && reply.status == 200 && reply.body.Undecodable? ==> r.1 == "Unable to generate AI summary: " + reply.body.error
  {
    var request := BuildSummaryRequest(a, jobDescription, resumeText);
    match reply
    case Raised(e) => (request, "Unable to generate AI summary: " + e)
    case Http(status, body) =>
      if status == 200 then
        match body
        case Decoded(text) => (request, Strip(text))
        case Undecodable(_, e) => (request, "Unable to generate AI summary: " + e)
      else (request, "Error generating summary: " + IntToString(status))
  }

  // ---------------------------------------------------------------------------
  // test_connection
  // ---------------------------------------------------------------------------

  /** The Google adapter's error detail: the decoded error message, else the
      first 200 characters of the raw body, else "No error details". */
  function GoogleErrorDetail(body: Body): (d: string)
    ensures body.Decoded? ==> d == body.text
    ensures body.Undecodable? && body.raw != [] ==>
      d <= body.raw && |d| == (if |body.raw| < 200 then |body.raw| else 200)
    ensures body.Undecodable? && body.raw == [] ==> d == "No error details"
  {
    match body
    case Decoded(text) => text
    case Undecodable(raw, _) => if raw != [] then Prefix(raw, 200) else "No error details"
  }

  /** `test_connection()` given the reply to its probe request: success
      exactly on status 200; otherwise the status (and, for Google, the error
      detail) or the raised error goes into the message. */
  function TestConnection(a: Adapter, reply: Reply): (r: (bool, string))
    ensures r.0 <==> reply.Http? && reply.status == 200
    ensures r.0 ==> r.1 == "Connection successful"
    ensures reply.Http? && reply.status != 200 && a.kind != GoogleAI ==>
      r.1 == "API Error: " + IntToString(reply.status)
    ensures reply.Http? && reply.status != 200 && a.kind == GoogleAI ==>
      r.1 == "API Error " + IntToString(reply.status) + ": " + GoogleErrorDetail(reply.body)
    ensures reply.Raised? ==> r.1 == "Connection failed: " + reply.error
  {
    match reply
    case Raised(e) => (false, "Connection failed: " + e)
    case Http(status, body) =>
      if status == 200 then (true, "Connection successful")
      else if a.kind == GoogleAI then (false, "API Error " + IntToString(status) + ": " + GoogleErrorDetail(body))
      else (false, "API Error: " + IntToString(status))
  }

  // ---------------------------------------------------------------------------
  // get_cost_estimate
  // ---------------------------------------------------------------------------

  /** Dollars per 1000 tokens of the priced adapters. */
  function PricePer1k(k: ProviderKind): real {
    match k
    case OpenAI => 0.002
    case Anthropic => 0.003
    case GoogleAI => 0.001
    case Groq => 0.0
    case Ollama => 0.0
  }

  /** `get_cost_estimate(text_length)`: `text_length // 4` tokens priced per
      thousand; Groq and Ollama return 0.0 without computing anything. Dafny's
      `/` by a positive divisor is Python's floor division `//`. */
  function CostEstimate(k: ProviderKind, textLength: int): (cost: real)
    ensures k == Groq || k == Ollama ==> cost == 0.0
    ensures k != Groq && k != Ollama ==> cost == ((textLength / 4) as real / 1000.0) * PricePer1k(k)
  {
    match k
    case Groq => 0.0
    case Ollama => 0.0
    case _ => ((textLength / 4) as real / 1000.0) * PricePer1k(k)
  }

  /** The estimate never decreases as the text grows, and is never negative
      for a length that is not. */
  lemma CostMonotone(k: ProviderKind, m: int, n: int)
    requires m <= n
    ensures CostEstimate(k, m) <= CostEstimate(k, n)
    ensures 0 <= m ==> 0.0 <= CostEstimate(k, m)
  {
    assert m / 4 <= n / 4 by {
      assert 4 * (m / 4) <= m;
      assert n < 4 * (n / 4) + 4;
    }
  }
}
