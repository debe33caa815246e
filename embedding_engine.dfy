/** The ranking step of the embedding engine (services/embedding_engine.py).

    Encoding texts and computing cosine similarities belong to foreign
    libraries; the engine here receives the similarity of a résumé to the job
    as a function of the loaded model and the two texts. What it does itself
    is load the model once, pair each score with its name and filename, and
    sort the triples by score, highest first, keeping ties in input order. */
module Embedding {
  import opened Wrappers

  /** A loaded sentence-embedding model, by its name. */
  datatype SentenceModel = SentenceModel(name: string)

  const ModelName: string := "all-MiniLM-L6-v2"

  /** One `(candidate_name, filename, similarity_score)` tuple. */
  datatype Ranked = Ranked(name: string, filename: string, score: real)

  // ---------------------------------------------------------------------------
  // zip
  // ---------------------------------------------------------------------------

  function Min3(a: nat, b: nat, c: nat): nat {
    if a <= b && a <= c then a else if b <= c then b else c
  }

  /** `list(zip(names, filenames, scores))`: as long as the shortest list, the
      i-th triple built from the i-th entries. */
  function Zip3(names: seq<string>, filenames: seq<string>, scores: seq<real>): (r: seq<Ranked>)
    ensures |r| == Min3(|names|, |filenames|, |scores|)
    ensures forall i :: 0 <= i < |r| ==> r[i] == Ranked(names[i], filenames[i], scores[i])
  {
    if names == [] || filenames == [] || scores == [] then []
    else [Ranked(names[0], filenames[0], scores[0])] + Zip3(names[1..], filenames[1..], scores[1..])
  }

  // ---------------------------------------------------------------------------
  // The order `sort(key=score, reverse=True)` produces
  // ---------------------------------------------------------------------------

  /** Scores never increase from one entry to a later one. */
  predicate Descending(s: seq<Ranked>) {
    forall i, j :: 0 <= i < j < |s| ==> s[i].score >= s[j].score
  }

  /** Insert `x` after every entry whose score is at least its own. */
  function Insert(t: seq<Ranked>, x: Ranked): (r: seq<Ranked>)
  {
    if t == [] then [x]
    else if t[0].score >= x.score then [t[0]] + Insert(t[1..], x)
    else [x] + t
  }

  /** Python's stable descending sort, as insertion of each entry in turn. */
  function SortDesc(s: seq<Ranked>): (r: seq<Ranked>)
  {
    if s == [] then [] else Insert(SortDesc(s[..|s| - 1]), s[|s| - 1])
  }

  /** The entries of a given score, in their order. */
  function WithScore(s: seq<Ranked>, v: real): (r: seq<Ranked>)
    ensures |r| <= |s|
  {
    if s == [] then []
    else (if s[0].score == v then [s[0]] else []) + WithScore(s[1..], v)
  }

  /** Every entry of an insertion is the inserted one or an old one, so a
      bound on both bounds the result. */
  lemma {:induction false} InsertBound(t: seq<Ranked>, x: Ranked, b: real)
    requires forall k :: 0 <= k < |t| ==> t[k].score <= b
    requires x.score <= b
    ensures forall k :: 0 <= k < |Insert(t, x)| ==> Insert(t, x)[k].score <= b
  {
    if t != [] && t[0].score >= x.score {
      InsertBound(t[1..], x, b);
    }
  }

  lemma {:induction false} InsertPermutes(t: seq<Ranked>, x: Ranked)
    ensures multiset(Insert(t, x)) == multiset(t) + multiset{x}
  {
    if t != [] && t[0].score >= x.score {
      InsertPermutes(t[1..], x);
      assert t == [t[0]] + t[1..];
    }
  }

  lemma {:induction false} InsertDescends(t: seq<Ranked>, x: Ranked)
    requires Descending(t)
    ensures Descending(Insert(t, x))
  {
    if t != [] && t[0].score >= x.score {
      var rest := Insert(t[1..], x);
      InsertDescends(t[1..], x);
      InsertBound(t[1..], x, t[0].score);
      var r := [t[0]] + rest;
      assert forall j :: 0 < j < |r| ==> r[j] == rest[j - 1];
    }
  }

  lemma InsertKeeps(t: seq<Ranked>, x: Ranked)
    requires Descending(t)
    ensures multiset(Insert(t, x)) == multiset(t) + multiset{x}
    ensures Descending(Insert(t, x))
  {
    InsertPermutes(t, x);
    InsertDescends(t, x);
  }

  lemma {:induction false} SortPermutes(s: seq<Ranked>)
    ensures multiset(SortDesc(s)) == multiset(s)
  {
    if s != [] {
      var init := s[..|s| - 1];
      SortPermutes(init);
      InsertPermutes(SortDesc(init), s[|s| - 1]);
      assert s == init + [s[|s| - 1]];
    }
  }

  lemma {:induction false} SortDescends(s: seq<Ranked>)
    ensures Descending(SortDesc(s))
  {
    if s != [] {
      SortDescends(s[..|s| - 1]);
      InsertDescends(SortDesc(s[..|s| - 1]), s[|s| - 1]);
    }
  }

  /** The sort returns the same entries, in descending order. */
  lemma SortKeeps(s: seq<Ranked>)
    ensures multiset(SortDesc(s)) == multiset(s)
    ensures Descending(SortDesc(s))
    ensures |SortDesc(s)| == |s|
  {
    SortPermutes(s);
    SortDescends(s);
    assert |SortDesc(s)| == |multiset(SortDesc(s))|;
  }

  lemma {:induction false} WithScoreAppend(a: seq<Ranked>, b: seq<Ranked>, v: real)
    ensures WithScore(a + b, v) == WithScore(a, v) + WithScore(b, v)
  {
    if a != [] {
      assert (a + b)[1..] == a[1..] + b;
      WithScoreAppend(a[1..], b, v);
    } else {
      assert a + b == b;
    }
  }

  /** A descending list whose head scores below `v` holds no entry of score `v`. */
  lemma {:induction false} NoneAbove(t: seq<Ranked>, v: real)
    requires Descending(t) && t != [] && t[0].score < v
    ensures WithScore(t, v) == []
  {
    if |t| > 1 {
      assert t[1].score <= t[0].score;
      NoneAbove(t[1..], v);
    }
  }

  /** Inserting `x` puts it after every entry of its own score. */
  lemma {:induction false} WithScoreInsert(t: seq<Ranked>, x: Ranked, v: real)
    requires Descending(t)
    ensures WithScore(Insert(t, x), v) == WithScore(t, v) + (if x.score == v then [x] else [])
  {
    if t == [] {
    } else if t[0].score >= x.score {
      WithScoreInsert(t[1..], x, v);
      assert ([t[0]] + Insert(t[1..], x))[1..] == Insert(t[1..], x);
    } else {
      assert ([x] + t)[1..] == t;
      if x.score == v {
        NoneAbove(t, v);
      }
    }
  }

  /** Entries of equal score keep their input order. */
  lemma {:induction false} SortStable(s: seq<Ranked>, v: real)
    ensures WithScore(SortDesc(s), v) == WithScore(s, v)
  {
    if s != [] {
      var init, last := s[..|s| - 1], s[|s| - 1];
      SortStable(init, v);
      SortDescends(init);
      WithScoreInsert(SortDesc(init), last, v);
      assert s == init + [last];
      WithScoreAppend(init, [last], v);
    }
  }

  // ---------------------------------------------------------------------------
  // The in-place sort
  // ---------------------------------------------------------------------------

  /** Where insertion of `x` lands in a descending list: after the first `j`
      entries, which all score at least `x`, when the rest score below it. */
  lemma {:induction false} InsertAt(t: seq<Ranked>, x: Ranked, j: nat)
    requires j <= |t|
    requires forall k :: 0 <= k < j ==> t[k].score >= x.score
    requires j < |t| ==> t[j].score < x.score
    ensures Insert(t, x) == t[..j] + [x] + t[j..]
  {
    if j > 0 {
      InsertAt(t[1..], x, j - 1);
      assert t[1..][..j - 1] == t[1..j];
      assert t[..j] == [t[0]] + t[1..j];
    }
  }

  /** In a descending list, the scan from the right stops where insertion
      lands: a list holding `t` with `x` placed at `j` is the insertion. */
  lemma InsertLands(t: seq<Ranked>, x: Ranked, j: nat, r: seq<Ranked>)
    requires Descending(t) && j <= |t|
    requires j > 0 ==> t[j - 1].score >= x.score
    requires forall k :: j <= k < |t| ==> t[k].score < x.score
    requires |r| == |t| + 1 && r[j] == x
    requires forall k :: 0 <= k < j ==> r[k] == t[k]
    requires forall k :: j < k < |r| ==> r[k] == t[k - 1]
    ensures r == Insert(t, x)
  {
    InsertAt(t, x, j);
    assert r == t[..j] + [x] + t[j..];
  }

  /** One pass of the insertion sort: the entry at `i` moves left past the
      entries of strictly lower score in the sorted prefix before it. */
  method InsertInPlace(a: array<Ranked>, i: nat)
    requires i < a.Length
    requires Descending(a[..i])
    modifies a
    ensures a[..i + 1] == Insert(old(a[..i]), old(a[i]))
    ensures a[i + 1..] == old(a[i + 1..])
  {
    ghost var t := a[..i];
    var x := a[i];
    var j := ShiftRight(a, i, x);
    a[j] := x;
    InsertLands(t, x, j, a[..i + 1]);
  }

  /** The scan of one pass: entries before `i` scoring strictly below `x`
      move one place right, and `j` is the gap they leave. */
  method ShiftRight(a: array<Ranked>, i: nat, x: Ranked) returns (j: nat)
    requires i < a.Length
    modifies a
    ensures j <= i
    ensures forall k :: 0 <= k < j ==> a[k] == old(a[k])
    ensures forall k :: j < k <= i ==> a[k] == old(a[k - 1])
    ensures forall k :: j <= k < i ==> old(a[k]).score < x.score
    ensures j > 0 ==> old(a[j - 1]).score >= x.score
    ensures forall k :: i < k < a.Length ==> a[k] == old(a[k])
  {
    j := i;
    while j > 0 && a[j - 1].score < x.score
      invariant j <= i
      invariant forall k :: 0 <= k < j ==> a[k] == old(a[k])
      invariant forall k :: j < k <= i ==> a[k] == old(a[k - 1])
      invariant forall k :: j <= k < i ==> old(a[k]).score < x.score
      invariant forall k :: i < k < a.Length ==> a[k] == old(a[k])
    {
      a[j] := a[j - 1];
      j := j - 1;
    }
  }

  /** Sorting one more entry inserts it into the sorted prefix. */
  lemma SortStep(input: seq<Ranked>, i: nat)
    requires i < |input|
    ensures SortDesc(input[..i + 1]) == Insert(SortDesc(input[..i]), input[i])
  {
    assert input[..i + 1][..i] == input[..i];
  }

  /** `list.sort(key=score, reverse=True)` on the list in place: insertion
      sort that moves an entry left only past entries of strictly lower
      score, so ties stay in order. */
  method SortInPlace(a: array<Ranked>)
    modifies a
    ensures a[..] == SortDesc(old(a[..]))
  {
    ghost var input := a[..];
    var i := 0;
    while i < a.Length
      invariant 0 <= i <= a.Length
      invariant a[..i] == SortDesc(input[..i])
      invariant a[i..] == input[i..]
    {
      SortDescends(input[..i]);
      assert a[i] == a[i..][0] == input[i];
      assert a[i + 1..] == a[i..][1..];
      InsertInPlace(a, i);
      SortStep(input, i);
      i := i + 1;
    }
    assert input[..a.Length] == input;
  }

  // ---------------------------------------------------------------------------
  // EmbeddingEngine
  // ---------------------------------------------------------------------------

  class EmbeddingEngine {
    var model: Option<SentenceModel>

    constructor ()
      ensures model == None
    {
      model := None;
    }

    /** `_load_model()`: loads the model only while none is loaded. */
    method LoadModel()
      modifies this
      ensures old(model).None? ==> model == Some(SentenceModel(ModelName))
      ensures old(model).Some? ==> model == old(model)
    {
      if model.None? {
        model := Some(SentenceModel(ModelName));
      }
    }

    /** `rank_candidates(job_description, resume_texts, candidate_names,
        filenames)`: every score comes from the one model loaded for the
        call; the triples are zipped and sorted by score, highest first. */
    method RankCandidates(job: string, resumeTexts: seq<string>, names: seq<string>, filenames: seq<string>,
                          similarity: (SentenceModel, string, string) -> real)
      returns (ranked: seq<Ranked>)
      modifies this
      ensures old(model).None? ==> model == Some(SentenceModel(ModelName))
      ensures old(model).Some? ==> model == old(model)
      ensures ranked == SortDesc(Zip3(names, filenames, Scores(model.value, job, resumeTexts, similarity)))
    {
      LoadModel();
      LoadModel();
      var scores := Scores(model.value, job, resumeTexts, similarity);
      var zipped := Zip3(names, filenames, scores);
      var a := new Ranked[|zipped|](k requires 0 <= k < |zipped| => zipped[k]);
      assert a[..] == zipped;
      SortInPlace(a);
      ranked := a[..];
    }
  }

  /** The similarity of each résumé to the job under one model. */
  function Scores(m: SentenceModel, job: string, resumeTexts: seq<string>,
                  similarity: (SentenceModel, string, string) -> real): (r: seq<real>)
    ensures |r| == |resumeTexts|
    ensures forall i :: 0 <= i < |r| ==> r[i] == similarity(m, job, resumeTexts[i])
  {
    seq(|resumeTexts|, i requires 0 <= i < |resumeTexts| => similarity(m, job, resumeTexts[i]))
  }

  /** What the ranking promises: the zipped triples, each score still beside
      its own name and filename, in descending order of score, ties in input
      order. */
  lemma Ranking(names: seq<string>, filenames: seq<string>, scores: seq<real>, v: real)
    ensures var z := Zip3(names, filenames, scores);
      && multiset(SortDesc(z)) == multiset(z)
      && Descending(SortDesc(z))
      && WithScore(SortDesc(z), v) == WithScore(z, v)
  {
    var z := Zip3(names, filenames, scores);
    SortKeeps(z);
    SortStable(z, v);
  }
}
