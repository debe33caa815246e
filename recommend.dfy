/** The recommendation endpoint of main.py (`recommend_candidates`) and the
    session helper `get_session_id`.

    An upload is its filename together with what each reader would obtain
    from its contents; the similarity of a résumé to the job is a parameter,
    as in the embedding engine. Saving and removing the temporary copy of
    each upload, timing and float rounding are not modelled. */
module Recommend {
  import opened Wrappers
  import opened PyStr
  import opened TextExtractor
  import opened Embedding

  datatype Upload = Upload(filename: string, contents: Reader -> ReadOutcome)

  /** `CandidateResult` as the endpoint fills it. */
  datatype CandidateResult = CandidateResult(
    name: string,
    filename: string,
    similarityScore: real,
    matchPercentage: real,
    aiSummary: Option<string>,
    aiProvider: Option<string>,
    aiGenerated: bool,
    resumeText: Option<string>)

  /** An `HTTPException` with its status and detail, or a
      `RecommendationResponse`. */
  datatype Response =
    | Rejected(status: int, detail: string)
    | Recommendation(success: bool, message: string, candidates: seq<CandidateResult>, totalProcessed: nat)

  const BadRequest := 400
  const TopCount := 10
  const AllowedExtensions: set<string> := {".pdf", ".docx", ".txt"}
  const EmptyJobDetail := "Job description cannot be empty"
  const NoFilesDetail := "At least one resume file must be uploaded"
  const NoTextMessage := "No text could be extracted from any of the uploaded files"

  function UnsupportedDetail(ext: string): string {
    "File type " + ext + " not supported. Please upload PDF, DOCX, or TXT files only."
  }

  function SuccessMessage(count: nat): string {
    "Successfully processed " + NatToString(count) + " candidates"
  }

  function FileNames(files: seq<Upload>): (r: seq<string>)
    ensures |r| == |files|
    ensures forall i :: 0 <= i < |files| ==> r[i] == files[i].filename
  {
    seq(|files|, i requires 0 <= i < |files| => files[i].filename)
  }

  // ---------------------------------------------------------------------------
  // Validation
  // ---------------------------------------------------------------------------

  /** The lower-cased extension of the first upload that is not allowed. */
  function Unsupported(filenames: seq<string>): (r: Option<string>)
    ensures r.Some? ==> r.value !in AllowedExtensions
  {
    if filenames == [] then None
    else if LowerExt(filenames[0]) !in AllowedExtensions then Some(LowerExt(filenames[0]))
    else Unsupported(filenames[1..])
  }

  /** Nothing is reported exactly when every extension is allowed. */
  lemma {:induction false} UnsupportedNone(filenames: seq<string>)
    ensures Unsupported(filenames).None? <==>
      forall i :: 0 <= i < |filenames| ==> LowerExt(filenames[i]) in AllowedExtensions
  {
    if filenames != [] && LowerExt(filenames[0]) in AllowedExtensions {
      UnsupportedNone(filenames[1..]);
      assert forall i :: 1 <= i < |filenames| ==> filenames[i] == filenames[1..][i - 1];
    }
  }

  /** The first disallowed upload is the one reported. */
  lemma {:induction false} UnsupportedFirst(filenames: seq<string>, i: nat)
    requires i < |filenames| && LowerExt(filenames[i]) !in AllowedExtensions
    requires forall j :: 0 <= j < i ==> LowerExt(filenames[j]) in AllowedExtensions
    ensures Unsupported(filenames) == Some(LowerExt(filenames[i]))
  {
    if i > 0 {
      UnsupportedFirst(filenames[1..], i - 1);
    }
  }

  /** The checks made before any upload is read: a blank job description,
      no uploads, or a disallowed extension, in that order. */
  function Validation(job: string, filenames: seq<string>): (r: Option<string>)
    ensures r.None? <==> (Strip(job) != [] && filenames != []
      && forall i :: 0 <= i < |filenames| ==> LowerExt(filenames[i]) in AllowedExtensions)
  {
    UnsupportedNone(filenames);
    if Strip(job) == [] then Some(EmptyJobDetail)
    else if filenames == [] then Some(NoFilesDetail)
    else match Unsupported(filenames)
      case Some(ext) => Some(UnsupportedDetail(ext))
      case None => None
  }

  /** An allowed extension always has a reader. */
  lemma AllowedHaveReaders(ext: string)
    ensures ext in AllowedExtensions <==> ReaderFor(ext).Some?
  {
  }

  // ---------------------------------------------------------------------------
  // Extraction
  // ---------------------------------------------------------------------------

  /** What one upload contributes when its text is not empty. */
  datatype Extraction = Extraction(name: string, filename: string, text: string)

  /** `text_extractor.process_file` on one upload, with its filename. */
  function Extract(f: Upload): (e: Extraction)
    ensures e.filename == f.filename
  {
    var processed := ProcessFile(f.filename, f.contents);
    Extraction(processed.0, f.filename, processed.1)
  }

  /** Every upload's extraction, in upload order. */
  function Extractions(files: seq<Upload>): (r: seq<Extraction>)
    ensures |r| == |files|
    ensures forall i :: 0 <= i < |files| ==> r[i] == Extract(files[i])
  {
    seq(|files|, i requires 0 <= i < |files| => Extract(files[i]))
  }

  /** The extractions whose text is not empty, in their order. */
  function WithText(xs: seq<Extraction>): (r: seq<Extraction>)
    ensures |r| <= |xs|
    ensures forall k :: 0 <= k < |r| ==> r[k].text != []
  {
    if xs == [] then []
    else
      var e := xs[|xs| - 1];
      WithText(xs[..|xs| - 1]) + (if e.text != [] then [e] else [])
  }

  /** What the loop keeps: the uploads whose text is not empty. */
  function Extracted(files: seq<Upload>): seq<Extraction> {
    WithText(Extractions(files))
  }

  lemma {:induction false} WithTextEmpty(xs: seq<Extraction>)
    ensures WithText(xs) == [] <==> forall i :: 0 <= i < |xs| ==> xs[i].text == []
  {
    if xs != [] {
      var init := xs[..|xs| - 1];
      WithTextEmpty(init);
      assert forall i :: 0 <= i < |init| ==> init[i] == xs[i];
    }
  }

  lemma {:induction false} WithTextFrom(xs: seq<Extraction>, k: nat)
    requires k < |WithText(xs)|
    ensures exists i :: 0 <= i < |xs| && WithText(xs)[k] == xs[i]
  {
    var init := xs[..|xs| - 1];
    if k < |WithText(init)| {
      WithTextFrom(init, k);
      var i :| 0 <= i < |init| && WithText(init)[k] == init[i];
      assert init[i] == xs[i];
    } else {
      assert WithText(xs)[k] == xs[|xs| - 1];
    }
  }

  /** One more extraction: the filter keeps it exactly when its text is not empty. */
  lemma WithTextSnoc(xs: seq<Extraction>, i: nat)
    requires i < |xs|
    ensures WithText(xs[..i + 1]) == WithText(xs[..i]) + (if xs[i].text != [] then [xs[i]] else [])
  {
    assert xs[..i + 1][..i] == xs[..i];
  }

  lemma ProjectionsSnoc(ex: seq<Extraction>, e: Extraction)
    ensures Texts(ex + [e]) == Texts(ex) + [e.text]
    ensures Names(ex + [e]) == Names(ex) + [e.name]
    ensures Filenames(ex + [e]) == Filenames(ex) + [e.filename]
  {
  }

  /** Nothing is extracted exactly when every upload yields empty text. */
  lemma NothingExtracted(files: seq<Upload>)
    ensures Extracted(files) == [] <==> forall i :: 0 <= i < |files| ==> Extract(files[i]).text == []
  {
    WithTextEmpty(Extractions(files));
  }

  /** Every extraction comes from some upload, under its own filename. */
  lemma ExtractedFromUploads(files: seq<Upload>, k: nat)
    requires k < |Extracted(files)|
    ensures exists i :: 0 <= i < |files| && Extracted(files)[k] == Extract(files[i])
  {
    WithTextFrom(Extractions(files), k);
  }

  function Names(ex: seq<Extraction>): (r: seq<string>)
    ensures |r| == |ex| && forall k :: 0 <= k < |ex| ==> r[k] == ex[k].name
  {
    seq(|ex|, k requires 0 <= k < |ex| => ex[k].name)
  }

  function Filenames(ex: seq<Extraction>): (r: seq<string>)
    ensures |r| == |ex| && forall k :: 0 <= k < |ex| ==> r[k] == ex[k].filename
  {
    seq(|ex|, k requires 0 <= k < |ex| => ex[k].filename)
  }

  function Texts(ex: seq<Extraction>): (r: seq<string>)
    ensures |r| == |ex| && forall k :: 0 <= k < |ex| ==> r[k] == ex[k].text
  {
    seq(|ex|, k requires 0 <= k < |ex| => ex[k].text)
  }

  // ---------------------------------------------------------------------------
  // Looking up a ranked entry's résumé
  // ---------------------------------------------------------------------------

  /** `next(text for j, text in enumerate(resume_texts) if candidate_names[j]
      == name and filenames[j] == filename)`: the text of the first entry
      with that name and filename, or `None` where `next` would raise. */
  function FirstText(texts: seq<string>, names: seq<string>, filenames: seq<string>,
                     name: string, filename: string): (r: Option<string>)
    requires |texts| == |names| == |filenames|
    ensures r.Some? ==> exists j :: (0 <= j < |texts| && names[j] == name && filenames[j] == filename
      && r.value == texts[j]
      && forall i :: 0 <= i < j ==> !(names[i] == name && filenames[i] == filename))
    ensures r.None? <==> forall j :: 0 <= j < |texts| ==> !(names[j] == name && filenames[j] == filename)
  {
    if texts == [] then None
    else if names[0] == name && filenames[0] == filename then Some(texts[0])
    else
      var rest := FirstText(texts[1..], names[1..], filenames[1..], name, filename);
      assert forall j :: 1 <= j < |texts| ==>
        texts[j] == texts[1..][j - 1] && names[j] == names[1..][j - 1] && filenames[j] == filenames[1..][j - 1];
      rest
  }

  lemma ZipEntry(names: seq<string>, filenames: seq<string>, scores: seq<real>, j: nat)
    requires j < |Zip3(names, filenames, scores)|
    ensures j < |names| && j < |filenames| && j < |scores|
    ensures Zip3(names, filenames, scores)[j] == Ranked(names[j], filenames[j], scores[j])
  {
  }

  /** Every entry of the ranking finds its résumé: the ranking is a
      permutation of the zipped lists, so `next` never runs dry. */
  lemma RankedEntriesFound(texts: seq<string>, names: seq<string>, filenames: seq<string>,
                           scores: seq<real>, e: Ranked)
    requires |texts| == |names| == |filenames| == |scores|
    requires e in SortDesc(Zip3(names, filenames, scores))
    ensures FirstText(texts, names, filenames, e.name, e.filename).Some?
  {
    var z := Zip3(names, filenames, scores);
    SortPermutes(z);
    assert e in multiset(SortDesc(z));
    var j :| 0 <= j < |z| && z[j] == e;
    ZipEntry(names, filenames, scores, j);
  }

  /** The record built for a ranked entry and the résumé found for it. */
  function ResultFor(e: Ranked, text: string): (r: CandidateResult)
    ensures r.name == e.name && r.filename == e.filename && r.similarityScore == e.score
    ensures r.aiSummary.None? && r.aiProvider.None? && !r.aiGenerated
    ensures r.resumeText == Some(text)
  {
    CandidateResult(e.name, e.filename, e.score, e.score * 100.0, None, None, false, Some(text))
  }

  // ---------------------------------------------------------------------------
  // The endpoint
  // ---------------------------------------------------------------------------

  /** The file-type loop: the extension of the first disallowed upload. */
  method CheckFileTypes(files: seq<Upload>) returns (bad: Option<string>)
    ensures bad == Unsupported(FileNames(files))
  {
    var filenames := FileNames(files);
    var i := 0;
    while i < |filenames|
      invariant 0 <= i <= |filenames|
      invariant forall j :: 0 <= j < i ==> LowerExt(filenames[j]) in AllowedExtensions
    {
      var ext := LowerExt(filenames[i]);
      if ext !in AllowedExtensions {
        UnsupportedFirst(filenames, i);
        return Some(ext);
      }
      i := i + 1;
    }
    UnsupportedNone(filenames);
    return None;
  }

  /** The checks of `recommend_candidates` before any upload is read, in
      order: the detail of the first that fails. */
  method CheckRequest(job: string, files: seq<Upload>) returns (rejection: Option<string>)
    ensures rejection == Validation(job, FileNames(files))
  {
    if Strip(job) == [] {
      return Some(EmptyJobDetail);
    }
    if files == [] {
      return Some(NoFilesDetail);
    }
    var bad := CheckFileTypes(files);
    if bad.Some? {
      return Some(UnsupportedDetail(bad.value));
    }
    return None;
  }

  /** The extraction loop: uploads with empty text are skipped, and the four
      lists grow together. */
  method ExtractAll(files: seq<Upload>)
    returns (candidatesData: seq<Extraction>, resumeTexts: seq<string>,
             candidateNames: seq<string>, filenames: seq<string>)
    ensures candidatesData == Extracted(files)
    ensures resumeTexts == Texts(candidatesData)
    ensures candidateNames == Names(candidatesData)
    ensures filenames == Filenames(candidatesData)
  {
    candidatesData, resumeTexts, candidateNames, filenames := [], [], [], [];
    var i := 0;
    while i < |files|
      invariant 0 <= i <= |files|
      invariant candidatesData == WithText(Extractions(files)[..i])
      invariant resumeTexts == Texts(candidatesData)
      invariant candidateNames == Names(candidatesData)
      invariant filenames == Filenames(candidatesData)
    {
      var e := Extract(files[i]);
      WithTextSnoc(Extractions(files), i);
      if e.text != [] {
        ProjectionsSnoc(candidatesData, e);
        candidatesData := candidatesData + [e];
        resumeTexts := resumeTexts + [e.text];
        candidateNames := candidateNames + [e.name];
        filenames := filenames + [e.filename];
      }
      i := i + 1;
    }
    assert Extractions(files)[..i] == Extractions(files);
  }

  /** `results` holds, for each ranked entry in `top`, the record built from
      the first extracted résumé with the same name and filename. */
  predicate Answers(results: seq<CandidateResult>, ex: seq<Extraction>, top: seq<Ranked>) {
    && |results| == |top|
    && forall k :: 0 <= k < |top| ==>
         && FirstText(Texts(ex), Names(ex), Filenames(ex), top[k].name, top[k].filename).Some?
         && results[k] == ResultFor(top[k], FirstText(Texts(ex), Names(ex), Filenames(ex), top[k].name, top[k].filename).value)
  }

  /** The result loop over the top entries. */
  method BuildResults(top: seq<Ranked>, ex: seq<Extraction>, scores: seq<real>)
    returns (results: seq<CandidateResult>)
    requires |scores| == |ex|
    requires forall k :: 0 <= k < |top| ==> top[k] in SortDesc(Zip3(Names(ex), Filenames(ex), scores))
    ensures Answers(results, ex, top)
  {
    results := [];
    var i := 0;
    while i < |top|
      invariant 0 <= i <= |top|
      invariant Answers(results, ex, top[..i])
    {
      var found := FirstText(Texts(ex), Names(ex), Filenames(ex), top[i].name, top[i].filename);
      RankedEntriesFound(Texts(ex), Names(ex), Filenames(ex), scores, top[i]);
      assert top[..i + 1] == top[..i] + [top[i]];
      results := results + [ResultFor(top[i], found.value)];
      i := i + 1;
    }
    assert top[..i] == top;
  }

  /** The ranking the endpoint computes over what was extracted. */
  function Ranking(m: SentenceModel, job: string, ex: seq<Extraction>,
                   similarity: (SentenceModel, string, string) -> real): seq<Ranked>
  {
    SortDesc(Zip3(Names(ex), Filenames(ex), Scores(m, job, Texts(ex), similarity)))
  }

  /** `recommend_candidates(job_description, files)`. */
  method RecommendCandidates(job: string, files: seq<Upload>, engine: EmbeddingEngine,
                             similarity: (SentenceModel, string, string) -> real)
    returns (resp: Response)
    modifies engine
    ensures Validation(job, FileNames(files)).Some? || Extracted(files) == [] ==> engine.model == old(engine.model)
    ensures old(engine.model).Some? ==> engine.model == old(engine.model)
    ensures old(engine.model).None? && Validation(job, FileNames(files)).None? && Extracted(files) != [] ==>
      engine.model == Some(SentenceModel(ModelName))
    ensures Validation(job, FileNames(files)).Some? ==>
      resp == Rejected(BadRequest, Validation(job, FileNames(files)).value)
    ensures Validation(job, FileNames(files)).None? && Extracted(files) == [] ==>
      resp == Recommendation(false, NoTextMessage, [], 0)
    ensures Validation(job, FileNames(files)).None? && Extracted(files) != [] ==>
      && engine.model.Some?
      && resp.Recommendation? && resp.success
      && resp.totalProcessed == |files|
      && resp.message == SuccessMessage(|resp.candidates|)
      && Answers(resp.candidates, Extracted(files), Prefix(Ranking(engine.model.value, job, Extracted(files), similarity), TopCount))
  {
    var rejection := CheckRequest(job, files);
    if rejection.Some? {
      return Rejected(BadRequest, rejection.value);
    }
    var candidatesData, resumeTexts, candidateNames, filenames := ExtractAll(files);
    if resumeTexts == [] {
      return Recommendation(false, NoTextMessage, [], 0);
    }
    var results := RankExtracted(job, candidatesData, engine, similarity);
    return Recommendation(true, SuccessMessage(|results|), results, |files|);
  }

  /** The ranking half of the endpoint: rank what was extracted with the
      engine's model, loading it if need be, and answer with the top ten. */
  method RankExtracted(job: string, ex: seq<Extraction>, engine: EmbeddingEngine,
                       similarity: (SentenceModel, string, string) -> real)
    returns (results: seq<CandidateResult>)
    modifies engine
    ensures old(engine.model).None? ==> engine.model == Some(SentenceModel(ModelName))
    ensures old(engine.model).Some? ==> engine.model == old(engine.model)
    ensures Answers(results, ex, Prefix(Ranking(engine.model.value, job, ex, similarity), TopCount))
  {
    var ranked := engine.RankCandidates(job, Texts(ex), Names(ex), Filenames(ex), similarity);
    var top := Prefix(ranked, TopCount);
    var scores := Scores(engine.model.value, job, Texts(ex), similarity);
    assert forall k :: 0 <= k < |top| ==> top[k] in ranked;
    results := BuildResults(top, ex, scores);
  }

  /** At most ten records come back, in ranked order, with the AI fields
      unset and the résumé that was extracted for the same name and
      filename. */
  lemma TopTenInOrder(m: SentenceModel, job: string, ex: seq<Extraction>,
                      similarity: (SentenceModel, string, string) -> real, results: seq<CandidateResult>)
    requires Answers(results, ex, Prefix(Ranking(m, job, ex, similarity), TopCount))
    ensures |results| <= TopCount
    ensures forall k :: 0 <= k < |results| ==>
      && results[k].name == Ranking(m, job, ex, similarity)[k].name
      && results[k].filename == Ranking(m, job, ex, similarity)[k].filename
      && results[k].aiSummary.None? && results[k].aiProvider.None? && !results[k].aiGenerated
      && exists j :: (0 <= j < |ex| && ex[j].name == results[k].name && ex[j].filename == results[k].filename
           && results[k].resumeText == Some(ex[j].text))
    ensures forall k, l :: 0 <= k < l < |results| ==> results[k].similarityScore >= results[l].similarityScore
  {
    var ranking := Ranking(m, job, ex, similarity);
    var top := Prefix(ranking, TopCount);
    SortDescends(Zip3(Names(ex), Filenames(ex), Scores(m, job, Texts(ex), similarity)));
    assert forall k :: 0 <= k < |top| ==> top[k] == ranking[k];
    forall k | 0 <= k < |results|
      ensures exists j :: (0 <= j < |ex| && ex[j].name == results[k].name && ex[j].filename == results[k].filename
           && results[k].resumeText == Some(ex[j].text))
    {
      var found := FirstText(Texts(ex), Names(ex), Filenames(ex), top[k].name, top[k].filename);
      var j :| 0 <= j < |ex| && Names(ex)[j] == top[k].name && Filenames(ex)[j] == top[k].filename
        && found.value == Texts(ex)[j];
    }
  }

  // ---------------------------------------------------------------------------
  // Sessions
  // ---------------------------------------------------------------------------

  const SessionKey := "session_id"

  /** The per-browser session store of the web framework. */
  class Session {
    var data: map<string, string>

    constructor (data0: map<string, string>)
      ensures data == data0
    {
      data := data0;
    }

    /** `get_session_id(request)`: an existing id is returned unchanged; only
        a session without one is given `freshId`, a new uuid. */
    method GetSessionId(freshId: string) returns (id: string)
      modifies this
      ensures SessionKey in data && id == data[SessionKey]
      ensures SessionKey in old(data) ==> data == old(data) && id == old(data)[SessionKey]
      ensures SessionKey !in old(data) ==> data == old(data)[SessionKey := freshId]
    {
      if SessionKey !in data {
        data := data[SessionKey := freshId];
      }
      id := data[SessionKey];
    }
  }
}
