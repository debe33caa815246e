/** The single-provider summarizer (services/ai_summarizer.py).

    The OpenAI client is not modelled beyond its presence: the constructor
    takes the value of the OPENAI_API_KEY environment variable, and a call
    takes the outcome of the chat-completion request it would send. */
module AISummarizer {
  import opened Wrappers
  import opened PyStr

  /** A configured client; it only remembers the key it was built with. */
  datatype Client = Client(apiKey: string)

  /** What the chat-completion call produced: the first choice's message
      content (which the client may leave unset), or an exception. */
  datatype Completion = Replied(content: Option<string>) | Raised(error: string)

  /** The parts of the inputs that reach the user prompt. */
  datatype Prompt = Prompt(jobExcerpt: string, candidateName: string, resumeExcerpt: string)

  const UnavailableMessage := "AI summary unavailable - OpenAI API key not configured"
  const FallbackTail := " shows relevant experience and skills that align with the job requirements based on their background and qualifications."
  const ResumeLimit: nat := 1500
  const JobLimit: nat := 1000
  const Ellipsis := "..."

  /** `_initialize_client`: a client exists exactly when the key is set and
      non-empty, and it carries that key. */
  function InitialClient(apiKey: Option<string>): (c: Option<Client>)
    ensures c.Some? <==> apiKey.Some? && apiKey.value != []
    ensures c.Some? ==> c.value.apiKey == apiKey.value
  {
    match apiKey
    case Some(k) => if k != [] then Some(Client(k)) else None
    case None => None
  }

  /** The résumé excerpt: the résumé itself up to 1500 characters, otherwise
      its first 1500 characters followed by "...". */
  function ResumeExcerpt(resumeText: string): (r: string)
    ensures Prefix(resumeText, ResumeLimit) <= r
    ensures |resumeText| <= ResumeLimit ==> r == resumeText
    ensures |resumeText| > ResumeLimit ==> |r| == ResumeLimit + |Ellipsis| && r[ResumeLimit..] == Ellipsis
  {
    if |resumeText| > ResumeLimit then resumeText[..ResumeLimit] + Ellipsis else resumeText
  }

  /** Cutting an excerpt again changes nothing. */
  lemma ExcerptIdempotent(resumeText: string)
    ensures ResumeExcerpt(ResumeExcerpt(resumeText)) == ResumeExcerpt(resumeText)
  {
    var r := ResumeExcerpt(resumeText);
    if |resumeText| > ResumeLimit {
      assert r[..ResumeLimit] == resumeText[..ResumeLimit];
      assert r == r[..ResumeLimit] + r[ResumeLimit..];
    }
  }

  /** The excerpt is the résumé unchanged exactly when the résumé fits, or is
      already 1503 characters ending in "...". */
  lemma ExcerptUnchangedIff(resumeText: string)
    ensures ResumeExcerpt(resumeText) == resumeText <==>
      (|resumeText| <= ResumeLimit
       || (|resumeText| == ResumeLimit + |Ellipsis| && resumeText[ResumeLimit..] == Ellipsis))
  {
    if |resumeText| == ResumeLimit + |Ellipsis| && resumeText[ResumeLimit..] == Ellipsis {
      assert resumeText == resumeText[..ResumeLimit] + resumeText[ResumeLimit..];
    }
  }

  /** `AISummarizer`. */
  class Summarizer {
    var client: Option<Client>

    /** `__init__`, given the value of OPENAI_API_KEY. */
    constructor (openaiApiKey: Option<string>)
      ensures client == InitialClient(openaiApiKey)
    {
      client := InitialClient(openaiApiKey);
    }

    /** `is_available()`. */
    function IsAvailable(): (b: bool)
      reads this
      ensures b <==> client.Some?
    {
      client != None
    }

    /** `generate_summary(job_description, resume_text, candidate_name)` given
        the outcome of the request. The first component is the prompt sent,
        None when no request is made. */
    function GenerateSummary(jobDescription: string, resumeText: string, candidateName: string,
                             completion: Completion): (r: (Option<Prompt>, string))
      reads this
      ensures client.None? ==> r == (None, UnavailableMessage)
      ensures client.Some? ==> r.0 == Some(Prompt(Prefix(jobDescription, JobLimit), candidateName, ResumeExcerpt(resumeText)))
      ensures client.Some? && completion.Replied? && completion.content.Some? ==>
        StrippedFrom(r.1, completion.content.value)
      ensures client.Some? && (completion.Raised? || completion.content.None?) ==>
        r.1 == candidateName + FallbackTail
    {
      if client.None? then (None, UnavailableMessage)
      else
        var prompt := Prompt(Prefix(jobDescription, JobLimit), candidateName, ResumeExcerpt(resumeText));
        match completion
        case Replied(Some(content)) => (Some(prompt), Strip(content))
        case _ => (Some(prompt), candidateName + FallbackTail)
    }
  }

  /** Without a client the answer is the same whatever the request would
      have returned, and no request is made. */
  lemma UnavailableIgnoresReply(s: Summarizer, job: string, resume: string, name: string, c1: Completion, c2: Completion)
    requires s.client.None?
    ensures s.GenerateSummary(job, resume, name, c1) == s.GenerateSummary(job, resume, name, c2)
    ensures s.GenerateSummary(job, resume, name, c1).0.None?
  {
  }

  /** The prompt carries at most 1000 characters of the job description and
      at most 1503 of the résumé, both taken from the front. */
  lemma PromptBounds(s: Summarizer, job: string, resume: string, name: string, c: Completion)
    requires s.client.Some?
    ensures var p := s.GenerateSummary(job, resume, name, c).0.value;
      && p.jobExcerpt <= job && |p.jobExcerpt| <= JobLimit
      && |p.resumeExcerpt| <= ResumeLimit + |Ellipsis|
      && Prefix(resume, ResumeLimit) <= p.resumeExcerpt
  {
  }
}
