/** Session configuration, the summary batch and the insight engine
    (services/ai_manager.py).

    The configuration manager and the candidate records are objects whose
    fields the source updates in place, so they are classes. The provider's
    replies, and the outcome of each task of the summary batch, are inputs. */
module AIManager {
  import opened Wrappers
  import opened PyStr
  import opened Providers

  // ---------------------------------------------------------------------------
  // Configuration requests
  // ---------------------------------------------------------------------------

  /** The configuration dict a caller passes in, by the keys the code reads. */
  datatype ConfigRequest = ConfigRequest(
    provider: Entry<string>,
    model: Entry<string>,
    apiKey: Entry<string>,
    customEndpoint: Entry<string>,
    temperature: Entry<real>,
    maxTokens: Entry<int>)

  /** Python truthiness of a looked-up string: present, not None, not empty. */
  predicate Given(e: Entry<string>) {
    e.Value? && e.v != []
  }

  /** The record `store_config` keeps for a session. */
  datatype StoredConfig = StoredConfig(
    provider: string,
    model: string,
    apiKey: string,
    customEndpoint: Option<string>,
    temperature: Option<real>,
    maxTokens: Option<int>)

  /** What `store_config` checks before it writes anything: provider, model
      and key are all truthy, and the pair is in the registry. */
  predicate Storable(config: ConfigRequest) {
    && Given(config.provider) && Given(config.model) && Given(config.apiKey)
    && ValidateProviderConfig(config.provider.v, config.model.v)
  }

  const DefaultTemperature: real := 0.7
  const DefaultMaxTokens: int := 200

  /** The record `store_config` writes. Temperature and max_tokens fall back
      to 0.7 and 200 only when the key is absent; a key holding None is kept
      as None. */
  function StoredFrom(config: ConfigRequest): (c: StoredConfig)
    requires Storable(config)
    ensures c.provider == config.provider.v && c.model == config.model.v && c.apiKey == config.apiKey.v
    ensures config.customEndpoint.Value? <==> c.customEndpoint.Some?
    ensures c.customEndpoint.Some? ==> c.customEndpoint.value == config.customEndpoint.v
    ensures config.temperature.Missing? ==> c.temperature == Some(DefaultTemperature)
    ensures config.temperature.Null? ==> c.temperature == None
    ensures config.temperature.Value? ==> c.temperature == Some(config.temperature.v)
    ensures config.maxTokens.Missing? ==> c.maxTokens == Some(DefaultMaxTokens)
    ensures config.maxTokens.Null? ==> c.maxTokens == None
    ensures config.maxTokens.Value? ==> c.maxTokens == Some(config.maxTokens.v)
  {
    StoredConfig(config.provider.v, config.model.v, config.apiKey.v, config.customEndpoint.Get(),
                 config.temperature.GetOr(DefaultTemperature), config.maxTokens.GetOr(DefaultMaxTokens))
  }

  /** The adapter `create_provider` builds for a stored configuration; it
      cannot fail, since the pair was validated first. */
  function AdapterFor(c: StoredConfig): (a: Adapter)
    requires ValidateProviderConfig(c.provider, c.model)
    ensures RegistryKey(a.kind) == c.provider && a.kind == ProviderClasses[c.provider]
    ensures a == NewAdapter(a.kind, c.apiKey, c.model, c.customEndpoint)
  {
    var created := CreateProvider(c.provider, c.apiKey, c.model, c.customEndpoint);
    assert created.Ok?;
    created.value
  }

  /** A stored configuration and the adapter kept beside it agree: the
      adapter is the one `create_provider` builds from it. */
  predicate Pairs(c: StoredConfig, a: Adapter) {
    && c.provider in ProviderClasses && c.model in Models(ProviderClasses[c.provider])
    && a == NewAdapter(ProviderClasses[c.provider], c.apiKey, c.model, c.customEndpoint)
  }

  /** Dropping one session from both maps keeps every other pairing. */
  lemma RemovalKeepsPairs<A, B>(cs: map<string, A>, ps: map<string, B>, sid: string, pairs: (A, B) -> bool)
    requires cs.Keys == ps.Keys && forall s :: s in cs ==> pairs(cs[s], ps[s])
    ensures (cs - {sid}).Keys == (ps - {sid}).Keys
    ensures forall s :: s in cs - {sid} ==> pairs((cs - {sid})[s], (ps - {sid})[s])
    ensures sid !in cs ==> cs - {sid} == cs && ps - {sid} == ps
  {
    forall s | s in cs - {sid}
      ensures pairs((cs - {sid})[s], (ps - {sid})[s])
    {
      assert (cs - {sid})[s] == cs[s] && (ps - {sid})[s] == ps[s];
    }
    if sid !in cs {
      assert cs - {sid} == cs;
      assert ps - {sid} == ps;
    }
  }

  // ---------------------------------------------------------------------------
  // AIConfigurationManager
  // ---------------------------------------------------------------------------

  class ConfigurationManager {
    var sessionConfigs: map<string, StoredConfig>
    var activeProviders: map<string, Adapter>

    /** Both maps hold the same sessions, and each session's adapter is the
        one its stored configuration creates. */
    ghost predicate Valid()
      reads this
    {
      && sessionConfigs.Keys == activeProviders.Keys
      && forall sid :: sid in sessionConfigs ==> Pairs(sessionConfigs[sid], activeProviders[sid])
    }

    constructor ()
      ensures Valid()
      ensures sessionConfigs == map[] && activeProviders == map[]
    {
      sessionConfigs := map[];
      activeProviders := map[];
    }

    /** `store_config(session_id, config)`. */
    method StoreConfig(sessionId: string, config: ConfigRequest) returns (ok: bool)
      requires Valid()
      modifies this
      ensures Valid()
      ensures ok <==> Storable(config)
      ensures ok ==> sessionConfigs == old(sessionConfigs)[sessionId := StoredFrom(config)]
      ensures ok ==> activeProviders == old(activeProviders)[sessionId := AdapterFor(StoredFrom(config))]
      ensures !ok ==> sessionConfigs == old(sessionConfigs) && activeProviders == old(activeProviders)
    {
      var provider, model, apiKey := config.provider.Get(), config.model.Get(), config.apiKey.Get();
      if !(provider.Some? && provider.value != [] && model.Some? && model.value != [] && apiKey.Some? && apiKey.value != []) {
        return false;
      }
      if !ValidateProviderConfig(provider.value, model.value) {
        return false;
      }
      var stored := StoredConfig(provider.value, model.value, apiKey.value, config.customEndpoint.Get(),
                                 config.temperature.GetOr(DefaultTemperature), config.maxTokens.GetOr(DefaultMaxTokens));
      sessionConfigs := sessionConfigs[sessionId := stored];
      activeProviders := activeProviders[sessionId := AdapterFor(stored)];
      ok := true;
    }

    /** `get_config(session_id)`. */
    function GetConfig(sessionId: string): (r: Option<StoredConfig>)
      reads this
      ensures r.Some? <==> sessionId in sessionConfigs
      ensures r.Some? ==> r.value == sessionConfigs[sessionId]
    {
      if sessionId in sessionConfigs then Some(sessionConfigs[sessionId]) else None
    }

    /** `get_provider(session_id)`. */
    function GetProvider(sessionId: string): (r: Option<Adapter>)
      reads this
      ensures r.Some? <==> sessionId in activeProviders
      ensures r.Some? ==> r.value == activeProviders[sessionId]
    {
      if sessionId in activeProviders then Some(activeProviders[sessionId]) else None
    }

    /** `test_connection(session_id)`, given the reply the adapter's probe
        would receive. */
    function TestConnection(sessionId: string, reply: Reply): (r: (bool, string))
      reads this
      ensures sessionId !in activeProviders ==> r == (false, "No provider configured")
      ensures sessionId in activeProviders ==> r == Providers.TestConnection(activeProviders[sessionId], reply)
      ensures r.0 ==> sessionId in activeProviders
    {
      match GetProvider(sessionId)
      case None => (false, "No provider configured")
      case Some(a) => Providers.TestConnection(a, reply)
    }

    /** `clear_config(session_id)`: the session leaves both maps; clearing a
        session that is not there changes nothing. */
    method ClearConfig(sessionId: string)
      requires Valid()
      modifies this
      ensures Valid()
      ensures sessionConfigs == old(sessionConfigs) - {sessionId}
      ensures activeProviders == old(activeProviders) - {sessionId}
      ensures GetConfig(sessionId) == None && GetProvider(sessionId) == None
      ensures forall reply :: TestConnection(sessionId, reply) == (false, "No provider configured")
      ensures sessionId !in old(sessionConfigs) ==> sessionConfigs == old(sessionConfigs) && activeProviders == old(activeProviders)
    {
      RemovalKeepsPairs(sessionConfigs, activeProviders, sessionId, Pairs);
      sessionConfigs := sessionConfigs - {sessionId};
      activeProviders := activeProviders - {sessionId};
    }
  }

  // ---------------------------------------------------------------------------
  // Candidate records and their annotations
  // ---------------------------------------------------------------------------

  /** A candidate dict as the batch sees it: the keys it reads and the three
      keys it writes. */
  class Candidate {
    var name: Entry<string>
    var resumeText: Entry<string>
    var aiSummary: Entry<string>
    var aiProvider: Entry<string>
    var aiGenerated: Entry<bool>

    constructor (name: Entry<string>, resumeText: Entry<string>)
      ensures this.name == name && this.resumeText == resumeText
      ensures aiSummary == Missing && aiProvider == Missing && aiGenerated == Missing
    {
      this.name := name;
      this.resumeText := resumeText;
      aiSummary := Missing;
      aiProvider := Missing;
      aiGenerated := Missing;
    }
  }

  /** The values the batch writes into `ai_summary`, `ai_provider` and
      `ai_generated`. */
  datatype Annotation = Annotation(summary: string, provider: string, generated: bool)

  predicate HasAnnotation(c: Candidate, an: Annotation)
    reads c
  {
    c.aiSummary == Value(an.summary) && c.aiProvider == Value(an.provider) && c.aiGenerated == Value(an.generated)
  }

  /** How an f-string shows `candidate.get('name', default)`: the default for
      an absent key, "None" for a key holding None. */
  function Rendered(e: Entry<string>, default: string): (r: string)
    ensures e.Missing? ==> r == default
    ensures e.Null? ==> r == "None"
    ensures e.Value? ==> r == e.v
  {
    match e
    case Missing => default
    case Null => "None"
    case Value(v) => v
  }

  const FallbackTail: string :=
    " shows relevant experience and skills that align with the job requirements based on their"
    + " background and qualifications. Configure an AI provider to get detailed analysis of candidate fit."

  const FallbackLabel: string := "Fallback (No AI Configured)"

  /** What `_add_fallback_summaries` writes: a templated sentence that opens
      with the candidate's name (or "This candidate"), the fallback label,
      and not generated. */
  function FallbackAnnotation(name: Entry<string>): (an: Annotation)
    ensures !an.generated && an.provider == FallbackLabel
    ensures Rendered(name, "This candidate") <= an.summary
    ensures an.summary[|Rendered(name, "This candidate")|..] == FallbackTail
  {
    var opening := Rendered(name, "This candidate");
    assert (opening + FallbackTail)[|opening|..] == FallbackTail;
    Annotation(opening + FallbackTail, FallbackLabel, false)
  }

  /** The record carries the fallback annotation built from its own name. */
  ghost predicate HasFallback(c: Candidate)
    reads c
  {
    HasAnnotation(c, FallbackAnnotation(c.name))
  }

  /** Two candidates get the same fallback text exactly when their names
      render alike: the text carries the name and nothing else of the record. */
  lemma FallbackInjective(n1: Entry<string>, n2: Entry<string>)
    ensures FallbackAnnotation(n1) == FallbackAnnotation(n2) <==> Rendered(n1, "This candidate") == Rendered(n2, "This candidate")
  {
    var o1, o2 := Rendered(n1, "This candidate"), Rendered(n2, "This candidate");
    if FallbackAnnotation(n1) == FallbackAnnotation(n2) {
      assert |o1| == |o2|;
      assert o1 == (o1 + FallbackTail)[..|o1|];
      assert o2 == (o2 + FallbackTail)[..|o2|];
    }
  }

  const NoResumeText: string := "No resume text available for analysis"

  /** `_generate_single_summary` given the reply the provider receives: a
      record whose `resume_text` is absent, None or empty is answered without
      the provider; otherwise the adapter's summary is returned as is. */
  function SingleSummary(a: Adapter, job: string, name: Entry<string>, resume: Entry<string>, reply: Reply): (r: string)
    ensures !Given(resume) ==> r == NoResumeText
    ensures Given(resume) ==> r == GenerateSummary(a, job, resume.v, Rendered(name, "Candidate"), reply).1
  {
    var resumeText := resume.GetOr([]);
    if resumeText.None? || resumeText.value == [] then NoResumeText
    else GenerateSummary(a, job, resumeText.value, Rendered(name, "Candidate"), reply).1
  }

  /** Without a résumé the reply is never consulted. */
  lemma NoResumeNoCall(a: Adapter, job: string, name: Entry<string>, resume: Entry<string>, r1: Reply, r2: Reply)
    requires !Given(resume)
    ensures SingleSummary(a, job, name, resume, r1) == SingleSummary(a, job, name, resume, r2) == NoResumeText
  {
  }

  /** `f"{provider.provider_name.title()} ({provider.model})"`. */
  function ProviderLabel(a: Adapter): (r: string)
    ensures |r| == |a.providerName| + |a.model| + 3
    ensures r[|a.providerName|..|a.providerName| + 2] == " ("
    ensures r[|r| - 1] == ')'
  {
    Title(a.providerName) + " (" + a.model + ")"
  }

  /** The provider part of each adapter's label; Google's reads "Googleai". */
  function LabelName(k: ProviderKind): string {
    match k
    case OpenAI => "Openai"
    case Anthropic => "Anthropic"
    case GoogleAI => "Googleai"
    case Groq => "Groq"
    case Ollama => "Ollama"
  }

  /** Every adapter's label is its title-cased provider name and its model. */
  lemma ProviderLabels(a: Adapter)
    requires a.providerName == ProviderName(a.kind)
    ensures ProviderLabel(a) == LabelName(a.kind) + " (" + a.model + ")"
  {
    TitleNames(a.kind);
  }

  lemma TitleNames(k: ProviderKind)
    ensures Title(ProviderName(k)) == LabelName(k)
  {
    match k
    case OpenAI => TitleOpenai();
    case Anthropic => TitleAnthropic();
    case GoogleAI => TitleGoogleai();
    case Groq => TitleGroq();
    case Ollama => TitleOllama();
  }

  lemma TitleOpenai() ensures Title("openai") == "Openai" { }
  lemma TitleAnthropic() ensures Title("anthropic") == "Anthropic" { }
  lemma TitleGoogleai() ensures Title("googleai") == "Googleai" { }
  lemma TitleGroq() ensures Title("groq") == "Groq" { }
  lemma TitleOllama() ensures Title("ollama") == "Ollama" { }

  /** How each submitted task ended: it returned (the adapter having seen
      `reply`), or `future.result(timeout=30)` raised `error`. */
  datatype TaskOutcome = Completed(reply: Reply) | TimedOut(error: string)

  const ErrorLabel: string := "Error"

  /** What the batch writes for one candidate with a provider configured. */
  function BatchAnnotation(a: Adapter, job: string, name: Entry<string>, resume: Entry<string>, outcome: TaskOutcome): (an: Annotation)
    ensures an.generated <==> outcome.Completed?
    ensures outcome.Completed? ==> an.summary == SingleSummary(a, job, name, resume, outcome.reply) && an.provider == ProviderLabel(a)
    ensures outcome.TimedOut? ==> an.summary == "Unable to generate AI summary: " + outcome.error && an.provider == ErrorLabel
  {
    match outcome
    case Completed(reply) => Annotation(SingleSummary(a, job, name, resume, reply), ProviderLabel(a), true)
    case TimedOut(e) => Annotation("Unable to generate AI summary: " + e, ErrorLabel, false)
  }

  /** The "Error" label marks exactly the tasks that did not complete: no
      provider label can read "Error". A completed task is marked generated
      even when the text it returned is the adapter's own error message. */
  lemma ErrorLabelOnlyOnFailure(a: Adapter, job: string, name: Entry<string>, resume: Entry<string>, outcome: TaskOutcome)
    ensures BatchAnnotation(a, job, name, resume, outcome).provider == ErrorLabel <==> outcome.TimedOut?
    ensures outcome == Completed(Http(500, Decoded(""))) && Given(resume) ==>
      BatchAnnotation(a, job, name, resume, outcome) == Annotation("Error generating summary: 500", ProviderLabel(a), true)
  {
    if outcome == Completed(Http(500, Decoded(""))) && Given(resume) {
      ThreeDigits(500);
    }
  }

  /** The entry at `i` is the last occurrence of its record in `s[..n]`, so
      it is the last write to that record. */
  ghost predicate LastWrite(s: seq<Candidate>, i: int, n: int)
    requires 0 <= i < n <= |s|
  {
    forall j :: i < j < n ==> s[j] != s[i]
  }

  /** The record at `j` carries the annotation the batch computes for it
      from the `j`-th task outcome. */
  ghost predicate AnnotatedAt(a: Adapter, job: string, top: seq<Candidate>, outcome: nat -> TaskOutcome, j: int)
    requires 0 <= j < |top|
    reads top[j]
  {
    HasAnnotation(top[j], BatchAnnotation(a, job, top[j].name, top[j].resumeText, outcome(j)))
  }

  // ---------------------------------------------------------------------------
  // AISummaryGenerator
  // ---------------------------------------------------------------------------

  class SummaryGenerator {
    const configManager: ConfigurationManager
    const maxWorkers: nat

    constructor (configManager: ConfigurationManager)
      ensures this.configManager == configManager && maxWorkers == 3
    {
      this.configManager := configManager;
      maxWorkers := 3;
    }

    /** `_add_fallback_summaries(candidates)`: every record gets the fallback
        annotation built from its own name, and the same list is returned. */
    method AddFallbackSummaries(candidates: seq<Candidate>) returns (r: seq<Candidate>)
      modifies set c | c in candidates
      ensures r == candidates
      ensures forall c :: c in candidates ==> c.name == old(c.name) && c.resumeText == old(c.resumeText)
      ensures forall c :: c in candidates ==> HasAnnotation(c, FallbackAnnotation(c.name))
    {
      var i := 0;
      while i < |candidates|
        invariant 0 <= i <= |candidates|
        invariant forall c :: c in candidates ==> c.name == old(c.name) && c.resumeText == old(c.resumeText)
        invariant forall j :: 0 <= j < i ==> HasFallback(candidates[j])
      {
        AddFallback(candidates[i]);
        i := i + 1;
      }
      r := candidates;
    }

    /** The loop body of `_add_fallback_summaries` for one record. */
    static method AddFallback(c: Candidate)
      modifies c
      ensures c.name == old(c.name) && c.resumeText == old(c.resumeText)
      ensures HasFallback(c)
    {
      var an := FallbackAnnotation(c.name);
      c.aiSummary := Value(an.summary);
      c.aiProvider := Value(FallbackLabel);
      c.aiGenerated := Value(false);
    }

    /** `generate_summaries_batch`, run sequentially: tasks are collected in
        submission order, so the i-th selected record receives the outcome of
        the i-th task. The result is `candidates[:max_summaries]` in input
        order. Records past the cut are not touched (the `modifies` clause). */
    method GenerateSummariesBatch(sessionId: string, job: string, candidates: seq<Candidate>, maxSummaries: int,
                                  outcome: nat -> TaskOutcome)
      returns (enhanced: seq<Candidate>)
      modifies set c | c in Prefix(candidates, maxSummaries)
      ensures enhanced == Prefix(candidates, maxSummaries)
      ensures forall c :: c in enhanced ==> c.name == old(c.name) && c.resumeText == old(c.resumeText)
      ensures sessionId !in configManager.activeProviders ==>
        forall c :: c in enhanced ==> HasAnnotation(c, FallbackAnnotation(c.name))
      ensures sessionId in configManager.activeProviders ==>
        forall i :: 0 <= i < |enhanced| && LastWrite(enhanced, i, |enhanced|) ==>
          HasAnnotation(enhanced[i], BatchAnnotation(configManager.activeProviders[sessionId], job,
                                                     enhanced[i].name, enhanced[i].resumeText, outcome(i)))
    {
      var provider := configManager.GetProvider(sessionId);
      if provider.None? {
        enhanced := AddFallbackSummaries(Prefix(candidates, maxSummaries));
        return;
      }
      enhanced := AnnotateAll(provider.value, job, Prefix(candidates, maxSummaries), outcome);
    }

    /** The collection loop with an adapter: each record, in submission
        order, receives the annotation for its own task's outcome. */
    static method AnnotateAll(a: Adapter, job: string, top: seq<Candidate>, outcome: nat -> TaskOutcome)
      returns (enhanced: seq<Candidate>)
      modifies set c | c in top
      ensures enhanced == top
      ensures forall c :: c in top ==> c.name == old(c.name) && c.resumeText == old(c.resumeText)
      ensures forall i :: 0 <= i < |top| && LastWrite(top, i, |top|) ==>
        HasAnnotation(top[i], BatchAnnotation(a, job, top[i].name, top[i].resumeText, outcome(i)))
    {
      enhanced := [];
      var i := 0;
      while i < |top|
        invariant 0 <= i <= |top|
        invariant enhanced == top[..i]
        invariant forall c :: c in top ==> c.name == old(c.name) && c.resumeText == old(c.resumeText)
        invariant forall j :: 0 <= j < i && LastWrite(top, j, i) ==> AnnotatedAt(a, job, top, outcome, j)
      {
        var c := top[i];
        Annotate(a, job, c, outcome(i));
        forall j | 0 <= j < i + 1 && LastWrite(top, j, i + 1)
          ensures AnnotatedAt(a, job, top, outcome, j)
        {
          if j < i {
            assert top[j] != c && LastWrite(top, j, i);
          }
        }
        enhanced := enhanced + [c];
        i := i + 1;
      }
    }

    /** The body of the collection loop for one record: a completed task
        writes its summary, the provider label and true; a raised one writes
        the error, "Error" and false. */
    static method Annotate(a: Adapter, job: string, c: Candidate, outcome: TaskOutcome)
      modifies c
      ensures c.name == old(c.name) && c.resumeText == old(c.resumeText)
      ensures HasAnnotation(c, BatchAnnotation(a, job, c.name, c.resumeText, outcome))
    {
      match outcome {
        case Completed(reply) =>
          c.aiSummary := Value(SingleSummary(a, job, c.name, c.resumeText, reply));
          c.aiProvider := Value(ProviderLabel(a));
          c.aiGenerated := Value(true);
        case TimedOut(e) =>
          c.aiSummary := Value("Unable to generate AI summary: " + e);
          c.aiProvider := Value(ErrorLabel);
          c.aiGenerated := Value(false);
      }
    }

    /** `estimate_cost` as written: a selected record whose `resume_text`
        holds None makes `len` raise. */
    function EstimateCostAsWritten(sessionId: string, job: string, candidates: seq<Candidate>, maxSummaries: int): (r: Result<real>)
      reads this, configManager, set c | c in candidates
      ensures sessionId !in configManager.activeProviders ==> r == Ok(0.0)
      ensures sessionId in configManager.activeProviders ==>
        (r.Err? <==> exists c :: c in Prefix(candidates, maxSummaries) && c.resumeText.Null?)
    {
      match configManager.GetProvider(sessionId)
      case None => Ok(0.0)
      case Some(a) =>
        var resumes := ResumeEntries(Prefix(candidates, maxSummaries));
        match ResumeLengthAsWritten(resumes)
        case Err(e) => Err(e)
        case Ok(total) => Ok(CostEstimate(a.kind, |job| * maxSummaries + total))
    }

    /** `estimate_cost` as evidently intended: a record whose `resume_text`
        is None counts as no text, as the batch itself treats it. The job
        length counts once per requested summary, not per selected record. */
    function EstimateCost(sessionId: string, job: string, candidates: seq<Candidate>, maxSummaries: int): (r: real)
      reads this, configManager, set c | c in candidates
      ensures sessionId !in configManager.activeProviders ==> r == 0.0
      ensures sessionId in configManager.activeProviders ==>
        r == CostEstimate(configManager.activeProviders[sessionId].kind,
                          CostInput(job, ResumeEntries(candidates), maxSummaries))
      ensures EstimateCostAsWritten(sessionId, job, candidates, maxSummaries).Ok? ==>
        r == EstimateCostAsWritten(sessionId, job, candidates, maxSummaries).value
    {
      match configManager.GetProvider(sessionId)
      case None => 0.0
      case Some(a) =>
        var resumes := ResumeEntries(Prefix(candidates, maxSummaries));
        ResumeLengthAgrees(resumes);
        EntriesOfPrefix(candidates, maxSummaries);
        CostEstimate(a.kind, |job| * maxSummaries + ResumeLength(resumes))
    }
  }

  // ---------------------------------------------------------------------------
  // The text length estimate_cost prices
  // ---------------------------------------------------------------------------

  /** The `resume_text` entries of the records, in order. */
  function ResumeEntries(cs: seq<Candidate>): (r: seq<Entry<string>>)
    reads set c | c in cs
    ensures |r| == |cs|
    ensures forall i :: 0 <= i < |cs| ==> r[i] == cs[i].resumeText
  {
    if cs == [] then [] else [cs[0].resumeText] + ResumeEntries(cs[1..])
  }

  /** Selecting records and then reading their résumés is reading the
      résumés and then selecting. */
  lemma EntriesOfPrefix(cs: seq<Candidate>, n: int)
    ensures ResumeEntries(Prefix(cs, n)) == Prefix(ResumeEntries(cs), n)
  {
  }

  /** `sum(len(c.get('resume_text', '')) ...)` as written: an absent key
      counts 0, and None raises the TypeError `len` raises. */
  function ResumeLengthAsWritten(rs: seq<Entry<string>>): (r: Result<int>)
    ensures r.Err? <==> Null in rs
  {
    if rs == [] then Ok(0)
    else match rs[0]
      case Null => Err("object of type 'NoneType' has no len()")
      case Missing => ResumeLengthAsWritten(rs[1..])
      case Value(v) =>
        match ResumeLengthAsWritten(rs[1..])
        case Err(e) => Err(e)
        case Ok(rest) => Ok(|v| + rest)
  }

  /** The summed résumé lengths, a None résumé counting as empty. */
  function ResumeLength(rs: seq<Entry<string>>): (r: nat)
  {
    if rs == [] then 0
    else (if rs[0].Value? then |rs[0].v| else 0) + ResumeLength(rs[1..])
  }

  /** Where the as-written sum is defined it is the intended one. */
  lemma {:induction false} ResumeLengthAgrees(rs: seq<Entry<string>>)
    ensures ResumeLengthAsWritten(rs).Ok? ==> ResumeLengthAsWritten(rs).value == ResumeLength(rs)
  {
    if rs != [] {
      ResumeLengthAgrees(rs[1..]);
    }
  }

  /** Adding a record adds its résumé length. */
  lemma {:induction false} ResumeLengthAppend(rs: seq<Entry<string>>, text: string)
    ensures ResumeLength(rs + [Value(text)]) == ResumeLength(rs) + |text|
  {
    if rs != [] {
      assert (rs + [Value(text)])[1..] == rs[1..] + [Value(text)];
      ResumeLengthAppend(rs[1..], text);
    } else {
      assert ([] + [Value(text)])[1..] == [];
    }
  }

  /** The text length `estimate_cost` hands to the adapter. */
  function CostInput(job: string, resumes: seq<Entry<string>>, maxSummaries: int): int {
    |job| * maxSummaries + ResumeLength(Prefix(resumes, maxSummaries))
  }

  /** The job length is charged once per requested summary even when fewer
      records exist: raising `max_summaries` past the number of records still
      adds one job length each time. */
  lemma JobChargedPerRequestedSummary(job: string, resumes: seq<Entry<string>>, m: int)
    requires m >= |resumes|
    ensures CostInput(job, resumes, m + 1) == CostInput(job, resumes, m) + |job|
  {
    assert Prefix(resumes, m + 1) == resumes == Prefix(resumes, m);
  }

  /** The as-written estimate rejects a None résumé that the batch itself
      answers with "No resume text available for analysis". */
  lemma NullResumeDiscrepancy(a: Adapter, job: string, reply: Reply)
    ensures ResumeLengthAsWritten([Null]).Err?
    ensures SingleSummary(a, job, Missing, Null, reply) == NoResumeText
    ensures ResumeLength([Null]) == 0
  {
    var rs: seq<Entry<string>> := [Null];
    assert Null in rs;
  }

  // ---------------------------------------------------------------------------
  // AIInsightEngine.configure_ai
  // ---------------------------------------------------------------------------

  /** `default_models` of `configure_ai`; note the Anthropic entry differs
      from the Anthropic constructor's default. */
  const ConfigureDefaults: map<string, string> :=
    map["openai" := "gpt-3.5-turbo", "anthropic" := "claude-3-haiku-20240307", "google" := "gemini-pro",
        "groq" := "llama3-8b-8192", "ollama" := "llama2"]

  /** `default_models.get(provider, 'gpt-3.5-turbo')`. */
  function DefaultModelFor(provider: string): (m: string)
    ensures provider !in ConfigureDefaults ==> m == "gpt-3.5-turbo"
    ensures m != []
  {
    if provider in ConfigureDefaults then ConfigureDefaults[provider] else "gpt-3.5-turbo"
  }

  /** Each registry key's configure-time default passes validation, and only
      Anthropic's differs from its constructor default. */
  lemma ConfigureDefaultsValid(k: ProviderKind)
    ensures ValidateProviderConfig(RegistryKey(k), DefaultModelFor(RegistryKey(k)))
    ensures DefaultModelFor(RegistryKey(k)) != DefaultModel(k) <==> k == Anthropic
  {
    assert DefaultModelFor(RegistryKey(k)) in Models(k);
  }

  /** `not api_key or len(api_key.strip()) < 3`, negated. */
  predicate KeyAcceptable(apiKey: Entry<string>) {
    Given(apiKey) && |Strip(apiKey.v)| >= 3
  }

  /** The model `configure_ai` goes on with: the given one, else the default. */
  function ChosenModel(config: ConfigRequest): (m: string)
    requires Given(config.provider)
    ensures m != []
    ensures Given(config.model) ==> m == config.model.v
  {
    if Given(config.model) then config.model.v else DefaultModelFor(config.provider.v)
  }

  /** The dict `configure_ai` hands to `store_config`: `config['model']` is
      filled in when the caller left it empty. */
  function WithModel(config: ConfigRequest): (c: ConfigRequest)
    requires Given(config.provider)
    ensures c.model == Value(ChosenModel(config))
    ensures c.(model := config.model) == config
  {
    config.(model := Value(ChosenModel(config)))
  }

  /** The checks `configure_ai` makes before storing, as the message it
      returns, in order; None when every check passes. */
  function Rejection(config: ConfigRequest): (r: Option<string>)
    ensures !Given(config.provider) ==> r == Some("Please select an AI provider")
    ensures Given(config.provider) && !KeyAcceptable(config.apiKey) ==> r == Some("Please enter a valid API key")
    ensures Given(config.provider) && KeyAcceptable(config.apiKey) ==>
      (r.None? <==> ValidateProviderConfig(config.provider.v, ChosenModel(config)))
    ensures r.Some? && Given(config.provider) && KeyAcceptable(config.apiKey) ==>
      r.value == "Invalid model '" + ChosenModel(config) + "' for provider '" + config.provider.v + "'"
  {
    if !Given(config.provider) then Some("Please select an AI provider")
    else if !KeyAcceptable(config.apiKey) then Some("Please enter a valid API key")
    else if !ValidateProviderConfig(config.provider.v, ChosenModel(config)) then
      Some("Invalid model '" + ChosenModel(config) + "' for provider '" + config.provider.v + "'")
    else None
  }

  /** A configuration that passes the checks of `configure_ai` is always
      stored, so its "Failed to save configuration" branch cannot be taken. */
  lemma AcceptedIsStorable(config: ConfigRequest)
    requires Rejection(config).None?
    ensures Given(config.provider) && Storable(WithModel(config))
  {
    var key := config.apiKey.v;
    var s := Strip(key);
    var i, j :| 0 <= i <= j <= |key| && s == key[i..j];
  }

  /** Storing a session and clearing it again leaves the other sessions as
      they were. */
  lemma StoreThenClear<V>(m: map<string, V>, sid: string, v: V)
    ensures m[sid := v] - {sid} == m - {sid}
  {
  }

  /** The common causes `configure_ai` recognises in a failed test's message. */
  datatype FailureKind = BadKey | NotFound | BadRequest | RateLimited | Forbidden | Unavailable | NoConnection | Other

  /** The first of "401", "404", "400", "429", "403", "500"/"502"/"503" and
      "Connection" found in the message decides the kind. */
  function FailureKindOf(message: string): (k: FailureKind)
    ensures k == Other <==>
      !Contains(message, "401") && !Contains(message, "404") && !Contains(message, "400")
      && !Contains(message, "429") && !Contains(message, "403") && !Contains(message, "500")
      && !Contains(message, "502") && !Contains(message, "503") && !Contains(message, "Connection")
    ensures k == BadKey <==> Contains(message, "401")
    ensures k == NotFound <==> !Contains(message, "401") && Contains(message, "404")
    ensures k == BadRequest <==>
      !Contains(message, "401") && !Contains(message, "404") && Contains(message, "400")
    ensures k == RateLimited <==>
      !Contains(message, "401") && !Contains(message, "404") && !Contains(message, "400")
      && Contains(message, "429")
    ensures k == Forbidden <==>
      !Contains(message, "401") && !Contains(message, "404") && !Contains(message, "400")
      && !Contains(message, "429") && Contains(message, "403")
    ensures k == Unavailable <==>
      !Contains(message, "401") && !Contains(message, "404") && !Contains(message, "400")
      && !Contains(message, "429") && !Contains(message, "403")
      && (Contains(message, "500") || Contains(message, "502") || Contains(message, "503"))
    ensures k == NoConnection <==>
      !Contains(message, "401") && !Contains(message, "404") && !Contains(message, "400")
      && !Contains(message, "429") && !Contains(message, "403") && !Contains(message, "500")
      && !Contains(message, "502") && !Contains(message, "503") && Contains(message, "Connection")
  {
    if Contains(message, "401") then BadKey
    else if Contains(message, "404") then NotFound
    else if Contains(message, "400") then BadRequest
    else if Contains(message, "429") then RateLimited
    else if Contains(message, "403") then Forbidden
    else if Contains(message, "500") || Contains(message, "502") || Contains(message, "503") then Unavailable
    else if Contains(message, "Connection") then NoConnection
    else Other
  }

  /** The answers `configure_ai` gives for a failed test, one per cause;
      `name` is the title-cased provider. */
  datatype Answer =
    | InvalidKey(name: string)
    | EndpointNotFound(name: string, model: string)
    | GroqModel(model: string)
    | InvalidRequest(name: string, model: string)
    | RateLimit(name: string)
    | AccessForbidden(name: string)
    | ServiceDown(name: string)
    | OllamaDown
    | NetworkError
    | TestFailed(message: string)

  /** The text of each answer. */
  function Wording(a: Answer): string {
    match a
    case InvalidKey(name) =>
      "\U{274C} Invalid API key for " + name + ". Please check your API key and try again."
    case EndpointNotFound(name, model) =>
      "\U{274C} API endpoint not found. Please verify the model '" + model + "' is available for " + name + "."
    case GroqModel(model) =>
      "\U{274C} Model '" + model + "' not accessible with your Groq API key. The app will use Llama3-8B which should work with standard Groq keys."
    case InvalidRequest(name, model) =>
      "\U{274C} Invalid request for " + name + ". The model '" + model + "' may not be accessible with your API key."
    case RateLimit(name) =>
      "\U{23F3} Rate limit exceeded for " + name + ". Please wait a moment and try again, or try a different provider like Groq (free with high limits)."
    case AccessForbidden(name) =>
      "\U{274C} Access forbidden for " + name + ". Your API key may not have permission for this model, or you may need to add billing information."
    case ServiceDown(name) =>
      "\U{26A0}\U{FE0F} " + name + " service temporarily unavailable. Please try again in a few minutes or use a different provider."
    case OllamaDown => "\U{274C} Ollama not running. Please start Ollama service: 'ollama serve'"
    case NetworkError => "\U{274C} Network error. Please check your internet connection and try again."
    case TestFailed(message) => "\U{274C} Configuration test failed: " + message
  }

  /** The answer `configure_ai` picks for a failed test: the kind decides it,
      and only a bad request and a connection failure depend on which
      provider it is. */
  function FailureAnswer(provider: string, model: string, message: string): (a: Answer)
    ensures FailureKindOf(message) == BadKey ==> a == InvalidKey(Title(provider))
    ensures FailureKindOf(message) == NotFound ==> a == EndpointNotFound(Title(provider), model)
    ensures FailureKindOf(message) == BadRequest && provider == "groq" ==> a == GroqModel(model)
    ensures FailureKindOf(message) == BadRequest && provider != "groq" ==> a == InvalidRequest(Title(provider), model)
    ensures FailureKindOf(message) == RateLimited ==> a == RateLimit(Title(provider))
    ensures FailureKindOf(message) == Forbidden ==> a == AccessForbidden(Title(provider))
    ensures FailureKindOf(message) == Unavailable ==> a == ServiceDown(Title(provider))
    ensures FailureKindOf(message) == NoConnection && provider == "ollama" ==> a == OllamaDown
    ensures FailureKindOf(message) == NoConnection && provider != "ollama" ==> a == NetworkError
    ensures FailureKindOf(message) == Other ==> a == TestFailed(message)
  {
    var name := Title(provider);
    match FailureKindOf(message)
    case BadKey => InvalidKey(name)
    case NotFound => EndpointNotFound(name, model)
    case BadRequest => if provider == "groq" then GroqModel(model) else InvalidRequest(name, model)
    case RateLimited => RateLimit(name)
    case Forbidden => AccessForbidden(name)
    case Unavailable => ServiceDown(name)
    case NoConnection => if provider == "ollama" then OllamaDown else NetworkError
    case Other => TestFailed(message)
  }

  /** The message `configure_ai` returns for a failed test. */
  function FailureMessage(provider: string, model: string, message: string): string {
    Wording(FailureAnswer(provider, model, message))
  }

  lemma ProviderSpecificMessages(model: string, message: string)
    ensures !Contains(message, "401") && !Contains(message, "404") && Contains(message, "400") ==>
      FailureAnswer("groq", model, message) == GroqModel(model)
    ensures NoDigits(message) && Contains(message, "Connection") ==>
      FailureAnswer("ollama", model, message) == OllamaDown
  {
    if !Contains(message, "401") && !Contains(message, "404") && Contains(message, "400") {
      assert FailureKindOf(message) == BadRequest;
    }
    if NoDigits(message) {
      NoCodesWithoutDigits(message);
    }
  }

  /** The kind a non-Google adapter's failed status maps to. */
  function StatusKind(status: int): FailureKind {
    if status == 401 then BadKey
    else if status == 404 then NotFound
    else if status == 400 then BadRequest
    else if status == 429 then RateLimited
    else if status == 403 then Forbidden
    else if status == 500 || status == 502 || status == 503 then Unavailable
    else Other
  }

  const StatusPrefix: string := "API Error: "

  /** For a three-digit status, a three-digit code occurs in
      "API Error: <status>" exactly when it is the status. */
  lemma StatusCodeIn(status: nat, code: nat)
    requires 100 <= status < 1000 && 100 <= code < 1000
    ensures Contains(StatusPrefix + IntToString(status), IntToString(code)) <==> status == code
  {
    ThreeDigits(status);
    ThreeDigits(code);
    assert NoDigits(StatusPrefix);
    DigitsAfterPlainPrefix(StatusPrefix, IntToString(status), IntToString(code));
    SameLengthContains(IntToString(status), IntToString(code));
    ThreeDigitsInjective(status, code);
  }

  /** "Connection" never occurs in "API Error: <digits>". */
  lemma NoConnectionInStatus(status: nat)
    ensures !Contains(StatusPrefix + IntToString(status), "Connection")
  {
    var s := StatusPrefix + IntToString(status);
    forall k | 0 <= k < |s| ensures s[k] != 'C' {
      if k >= |StatusPrefix| {
        assert s[k] == IntToString(status)[k - |StatusPrefix|];
      }
    }
    FirstCharAbsent(s, "Connection");
  }

  lemma ClientErrorLiterals()
    ensures IntToString(401) == "401" && IntToString(404) == "404" && IntToString(400) == "400"
    ensures IntToString(429) == "429" && IntToString(403) == "403"
  {
    ThreeDigits(401); ThreeDigits(404); ThreeDigits(400); ThreeDigits(429); ThreeDigits(403);
  }

  lemma ServerErrorLiterals()
    ensures IntToString(500) == "500" && IntToString(502) == "502" && IntToString(503) == "503"
  {
    ThreeDigits(500); ThreeDigits(502); ThreeDigits(503);
  }

  /** A failed test of a non-Google adapter that answered with a three-digit
      status is classified by that status alone. */
  lemma StatusClassification(a: Adapter, status: int, body: Body)
    requires a.kind != GoogleAI && 100 <= status < 1000 && status != 200
    ensures FailureKindOf(Providers.TestConnection(a, Http(status, body)).1) == StatusKind(status)
  {
    var m := Providers.TestConnection(a, Http(status, body)).1;
    assert m == StatusPrefix + IntToString(status);
    ClientErrorLiterals();
    ServerErrorLiterals();
    StatusCodeIn(status, 401); StatusCodeIn(status, 404); StatusCodeIn(status, 400); StatusCodeIn(status, 429);
    StatusCodeIn(status, 403); StatusCodeIn(status, 500); StatusCodeIn(status, 502); StatusCodeIn(status, 503);
    NoConnectionInStatus(status);
  }

  /** None of the status codes occurs in a text without digits. */
  lemma NoCodesWithoutDigits(m: string)
    requires NoDigits(m)
    ensures !Contains(m, "401") && !Contains(m, "404") && !Contains(m, "400") && !Contains(m, "429")
    ensures !Contains(m, "403") && !Contains(m, "500") && !Contains(m, "502") && !Contains(m, "503")
  {
    assert forall k :: 0 <= k < |m| ==> m[k] != '4' && m[k] != '5';
    FirstCharAbsent(m, "401"); FirstCharAbsent(m, "404"); FirstCharAbsent(m, "400"); FirstCharAbsent(m, "429");
    FirstCharAbsent(m, "403"); FirstCharAbsent(m, "500"); FirstCharAbsent(m, "502"); FirstCharAbsent(m, "503");
  }

  /** A probe that raised an error whose text holds no digit is reported as a
      connection problem. */
  lemma RaisedClassification(a: Adapter, error: string)
    requires NoDigits(error)
    ensures FailureKindOf(Providers.TestConnection(a, Raised(error)).1) == NoConnection
  {
    var m := Providers.TestConnection(a, Raised(error)).1;
    assert m == "Connection" + (" failed: " + error);
    assert NoDigits(m) by {
      assert NoDigits("Connection failed: ");
    }
    NoCodesWithoutDigits(m);
    ContainsPrefix("Connection", " failed: " + error);
  }

  /** What `get_provider_info` reports. */
  datatype ProviderInfo = ProviderInfo(provider: string, model: string, configured: bool, endpoint: Option<string>)

  /** The statistics `generate_candidate_insights` returns beside the records. */
  datatype InsightStats = InsightStats(
    totalCandidates: nat,
    summariesGenerated: nat,
    providerInfo: Option<ProviderInfo>,
    estimatedCost: real)

  class InsightEngine {
    const configManager: ConfigurationManager
    const summaryGenerator: SummaryGenerator

    constructor ()
      ensures fresh(configManager) && configManager.Valid()
      ensures configManager.sessionConfigs == map[] && configManager.activeProviders == map[]
      ensures summaryGenerator.configManager == configManager
    {
      var manager := new ConfigurationManager();
      configManager := manager;
      summaryGenerator := new SummaryGenerator(manager);
    }

    /** `configure_ai(session_id, config)`, given the reply the connection
        test receives. Rejected requests leave the store as it was; an
        accepted one is stored, probed, and cleared again if the probe fails. */
    method ConfigureAI(sessionId: string, config: ConfigRequest, reply: Reply) returns (success: bool, message: string)
      requires configManager.Valid()
      modifies configManager
      ensures configManager.Valid()
      ensures Rejection(config).Some? ==>
        !success && message == Rejection(config).value
        && configManager.sessionConfigs == old(configManager.sessionConfigs)
        && configManager.activeProviders == old(configManager.activeProviders)
      ensures Rejection(config).None? ==>
        var provider, model := config.provider.v, ChosenModel(config);
        var stored := StoredFrom(WithModel(config));
        var test := Providers.TestConnection(AdapterFor(stored), reply);
        && (success <==> test.0)
        && (success ==> message == "\U{2705} " + Title(provider) + " configured successfully with " + model)
        && (success ==> configManager.sessionConfigs == old(configManager.sessionConfigs)[sessionId := stored])
        && (success ==> configManager.activeProviders == old(configManager.activeProviders)[sessionId := AdapterFor(stored)])
        && (!success ==> message == FailureMessage(provider, model, test.1))
        && (!success ==> configManager.sessionConfigs == old(configManager.sessionConfigs) - {sessionId})
        && (!success ==> configManager.activeProviders == old(configManager.activeProviders) - {sessionId})
    {
      var rejection := Rejection(config);
      if rejection.Some? {
        return false, rejection.value;
      }
      AcceptedIsStorable(config);
      var request := WithModel(config);
      var provider, model := request.provider.v, request.model.v;
      ghost var before := configManager.sessionConfigs;
      ghost var beforeProviders := configManager.activeProviders;
      var stored := configManager.StoreConfig(sessionId, request);
      if stored {
        success, message := TestStoredConfig(sessionId, provider, model, reply);
        StoreThenClear(before, sessionId, StoredFrom(request));
        StoreThenClear(beforeProviders, sessionId, AdapterFor(StoredFrom(request)));
      } else {
        assert false;
      }
    }

    /** The part of `configure_ai` after the configuration is stored: test
        it; on failure clear the session again and explain the failure. */
    method TestStoredConfig(sessionId: string, provider: string, model: string, reply: Reply)
      returns (success: bool, message: string)
      requires configManager.Valid() && sessionId in configManager.activeProviders
      modifies configManager
      ensures configManager.Valid()
      ensures success <==> Providers.TestConnection(old(configManager.activeProviders[sessionId]), reply).0
      ensures success ==> message == "\U{2705} " + Title(provider) + " configured successfully with " + model
      ensures success ==> configManager.sessionConfigs == old(configManager.sessionConfigs)
      ensures success ==> configManager.activeProviders == old(configManager.activeProviders)
      ensures !success ==>
        message == FailureMessage(provider, model, Providers.TestConnection(old(configManager.activeProviders[sessionId]), reply).1)
      ensures !success ==> configManager.sessionConfigs == old(configManager.sessionConfigs) - {sessionId}
      ensures !success ==> configManager.activeProviders == old(configManager.activeProviders) - {sessionId}
    {
      var test := configManager.TestConnection(sessionId, reply);
      if test.0 {
        success, message := true, "\U{2705} " + Title(provider) + " configured successfully with " + model;
      } else {
        configManager.ClearConfig(sessionId);
        success, message := false, FailureMessage(provider, model, test.1);
      }
    }

    /** `get_provider_info(session_id)`: the stored provider, model and
        endpoint. Every stored record has a `custom_endpoint` key, so the
        'default' fallback is never reported; an unset endpoint reads None. */
    function GetProviderInfo(sessionId: string): (r: Option<ProviderInfo>)
      reads this, configManager
      ensures r.Some? <==> sessionId in configManager.sessionConfigs
      ensures r.Some? ==>
        var c := configManager.sessionConfigs[sessionId];
        r.value == ProviderInfo(c.provider, c.model, true, c.customEndpoint)
    {
      match configManager.GetConfig(sessionId)
      case None => None
      case Some(c) => Some(ProviderInfo(c.provider, c.model, true, c.customEndpoint))
    }

    /** `generate_candidate_insights`: the batch, then its statistics. The
        cost is `estimate_cost` as written, so when a provider is configured
        and a selected record holds `resume_text: None` the call raises after
        the batch has already annotated the records. */
    method GenerateCandidateInsights(sessionId: string, job: string, candidates: seq<Candidate>, maxSummaries: int,
                                     outcome: nat -> TaskOutcome)
      returns (enhanced: seq<Candidate>, stats: Result<InsightStats>)
      requires summaryGenerator.configManager == configManager
      modifies set c | c in Prefix(candidates, maxSummaries)
      ensures enhanced == Prefix(candidates, maxSummaries)
      ensures forall c :: c in enhanced ==> c.name == old(c.name) && c.resumeText == old(c.resumeText)
      ensures sessionId !in configManager.activeProviders ==>
        forall c :: c in enhanced ==> HasAnnotation(c, FallbackAnnotation(c.name))
      ensures sessionId in configManager.activeProviders ==>
        forall i :: 0 <= i < |enhanced| && LastWrite(enhanced, i, |enhanced|) ==>
          HasAnnotation(enhanced[i], BatchAnnotation(configManager.activeProviders[sessionId], job,
                                                     enhanced[i].name, enhanced[i].resumeText, outcome(i)))
      ensures stats.Err? <==>
        sessionId in configManager.activeProviders && exists c :: c in enhanced && c.resumeText.Null?
      ensures stats.Ok? ==>
        && stats.value.totalCandidates == |candidates| && stats.value.summariesGenerated == |enhanced|
        && stats.value.providerInfo == GetProviderInfo(sessionId)
        && stats.value.estimatedCost == summaryGenerator.EstimateCostAsWritten(sessionId, job, candidates, maxSummaries).value
        && stats.value.estimatedCost == summaryGenerator.EstimateCost(sessionId, job, candidates, maxSummaries)
    {
      enhanced := summaryGenerator.GenerateSummariesBatch(sessionId, job, candidates, maxSummaries, outcome);
      var cost := summaryGenerator.EstimateCostAsWritten(sessionId, job, candidates, maxSummaries);
      if cost.Err? {
        return enhanced, Err(cost.error);
      }
      stats := Ok(InsightStats(|candidates|, |enhanced|, GetProviderInfo(sessionId), cost.value));
    }
  }
}
