/** The text extractor (services/text_extractor.py): which reader a file
    goes to, and how a candidate name is taken from the extracted text or,
    failing that, from the filename.

    Reading PDF, DOCX and TXT files is file I/O; each reader is represented
    by what it obtains from the file: the raw text, or the failure it met. */
module TextExtractor {
  import opened Wrappers
  import opened PyStr

  // ---------------------------------------------------------------------------
  // The name pattern ^([A-Z][a-z]+\s+[A-Z][a-z]+(?:\s+[A-Z][a-z]+)?)\s*$
  // ---------------------------------------------------------------------------

  /** `[A-Z][a-z]+`. */
  predicate IsWord(w: string) {
    |w| >= 2 && IsUpper(w[0]) && forall k :: 1 <= k < |w| ==> IsLower(w[k])
  }

  /** `\s+`. */
  predicate IsGap(g: string) {
    |g| >= 1 && AllSpace(g)
  }

  /** The language of the captured group: two or three words separated by
      whitespace. */
  ghost predicate NameShaped(g: string) {
    (exists i, j :: TwoWords(g, i, j)) || (exists i, j, k, l :: ThreeWords(g, i, j, k, l))
  }

  /** `g` is a word, a gap from `i` to `j`, and a word. */
  predicate TwoWords(g: string, i: int, j: int) {
    0 < i < j < |g| && IsWord(g[..i]) && IsGap(g[i..j]) && IsWord(g[j..])
  }

  /** `g` is a word, a gap from `i` to `j`, a word, a gap from `k` to `l`,
      and a word. */
  predicate ThreeWords(g: string, i: int, j: int, k: int, l: int) {
    0 < i < j < k < l < |g|
      && IsWord(g[..i]) && IsGap(g[i..j]) && IsWord(g[j..k]) && IsGap(g[k..l]) && IsWord(g[l..])
  }

  /** The pattern matches `s` capturing `g`: `g` starts `s`, has the name
      shape, and only whitespace follows it. */
  ghost predicate PatternMatches(s: string, g: string) {
    |g| <= |s| && g == s[..|g|] && NameShaped(g) && AllSpace(s[|g|..])
  }

  /** The end of the run of `[a-z]` starting at `i`. */
  function LowerRun(s: string, i: nat): (e: nat)
    requires i <= |s|
    ensures i <= e <= |s|
    ensures forall k :: i <= k < e ==> IsLower(s[k])
    ensures e < |s| ==> !IsLower(s[e])
    decreases |s| - i
  {
    if i < |s| && IsLower(s[i]) then LowerRun(s, i + 1) else i
  }

  /** The end of the run of `\s` starting at `i`. */
  function SpaceRun(s: string, i: nat): (e: nat)
    requires i <= |s|
    ensures i <= e <= |s|
    ensures forall k :: i <= k < e ==> IsSpace(s[k])
    ensures e < |s| ==> !IsSpace(s[e])
    decreases |s| - i
  {
    if i < |s| && IsSpace(s[i]) then SpaceRun(s, i + 1) else i
  }

  /** Where a word starting at `i` ends, if one starts there. */
  function WordEnd(s: string, i: nat): (r: Option<nat>)
    requires i <= |s|
    ensures r.Some? ==> i + 2 <= r.value <= |s| && (r.value < |s| ==> !IsLower(s[r.value]))
  {
    if i < |s| && IsUpper(s[i]) then
      var e := LowerRun(s, i + 1);
      if e > i + 1 then Some(e) else None
    else None
  }

  lemma WordEndIsWord(s: string, i: nat)
    requires i <= |s| && WordEnd(s, i).Some?
    ensures IsWord(s[i..WordEnd(s, i).value])
  {
    var w := s[i..WordEnd(s, i).value];
    assert forall k :: 1 <= k < |w| ==> w[k] == s[i + k];
  }

  /** A word that ends before a non-lowercase character (or the end) is the
      one `WordEnd` finds. */
  lemma WordEndFinds(s: string, i: nat, e: nat)
    requires i <= e <= |s| && IsWord(s[i..e]) && (e < |s| ==> !IsLower(s[e]))
    ensures WordEnd(s, i) == Some(e)
  {
    var w := s[i..e];
    assert s[i] == w[0];
    forall k | i + 1 <= k < e ensures IsLower(s[k]) {
      assert s[k] == w[k - i];
    }
  }

  /** A run of whitespace followed by a non-space (or the end) is the one
      `SpaceRun` finds. */
  lemma SpaceRunFinds(s: string, i: nat, e: nat)
    requires i <= e <= |s| && AllSpace(s[i..e]) && (e < |s| ==> !IsSpace(s[e]))
    ensures SpaceRun(s, i) == e
  {
    forall k | i <= k < e ensures IsSpace(s[k]) {
      assert s[k] == s[i..e][k - i];
    }
  }

  /** `re.search(pattern, s)` followed by `.group(1)`: the pattern is anchored
      at the start and the end, and scanning greedily decides it, because a
      word ends only at a character that is not `[a-z]` and a gap ends only
      at one that is not whitespace. */
  function NameMatch(s: string): (r: Option<string>)
  {
    match WordEnd(s, 0)
    case None => None
    case Some(e1) =>
      var g1 := SpaceRun(s, e1);
      if g1 == e1 then None
      else
        match WordEnd(s, g1)
        case None => None
        case Some(e2) =>
          var g2 := SpaceRun(s, e2);
          if g2 == |s| then Some(s[..e2])
          else if g2 == e2 then None
          else
            match WordEnd(s, g2)
            case None => None
            case Some(e3) => if SpaceRun(s, e3) == |s| then Some(s[..e3]) else None
  }

  lemma TailAllSpace(s: string, e: nat)
    requires e <= |s| && SpaceRun(s, e) == |s|
    ensures AllSpace(s[e..])
  {
    assert forall k :: 0 <= k < |s| - e ==> s[e..][k] == s[e + k];
  }

  lemma GapBetween(s: string, e: nat)
    requires e <= |s|
    ensures AllSpace(s[e..SpaceRun(s, e)])
  {
    var g := s[e..SpaceRun(s, e)];
    assert forall k :: 0 <= k < |g| ==> g[k] == s[e + k];
  }

  /** The two-word capture `s[..e2]` has the name shape. */
  lemma TwoWordsShaped(s: string, e1: nat, g1: nat, e2: nat)
    requires 0 < e1 < g1 < e2 <= |s|
    requires IsWord(s[..e1]) && IsGap(s[e1..g1]) && IsWord(s[g1..e2])
    ensures NameShaped(s[..e2])
  {
    var g := s[..e2];
    assert g[..e1] == s[..e1] && g[e1..g1] == s[e1..g1] && g[g1..] == s[g1..e2];
    assert TwoWords(g, e1, g1);
  }

  /** The three-word capture `s[..e3]` has the name shape. */
  lemma ThreeWordsShaped(s: string, e1: nat, g1: nat, e2: nat, g2: nat, e3: nat)
    requires 0 < e1 < g1 < e2 < g2 < e3 <= |s|
    requires IsWord(s[..e1]) && IsGap(s[e1..g1]) && IsWord(s[g1..e2])
    requires IsGap(s[e2..g2]) && IsWord(s[g2..e3])
    ensures NameShaped(s[..e3])
  {
    var g := s[..e3];
    assert g[..e1] == s[..e1] && g[e1..g1] == s[e1..g1] && g[g1..e2] == s[g1..e2];
    assert g[e2..g2] == s[e2..g2] && g[g2..] == s[g2..e3];
    assert ThreeWords(g, e1, g1, e2, g2);
  }

  /** Whatever `NameMatch` captures, the pattern matches with that capture. */
  lemma NameMatchSound(s: string)
    requires NameMatch(s).Some?
    ensures PatternMatches(s, NameMatch(s).value)
  {
    var e1 := WordEnd(s, 0).value;
    var g1 := SpaceRun(s, e1);
    var e2 := WordEnd(s, g1).value;
    var g2 := SpaceRun(s, e2);
    WordEndIsWord(s, 0);
    WordEndIsWord(s, g1);
    GapBetween(s, e1);
    assert s[0..e1] == s[..e1];
    if g2 == |s| {
      TwoWordsShaped(s, e1, g1, e2);
      TailAllSpace(s, e2);
    } else {
      var e3 := WordEnd(s, g2).value;
      WordEndIsWord(s, g2);
      GapBetween(s, e2);
      ThreeWordsShaped(s, e1, g1, e2, g2, e3);
      TailAllSpace(s, e3);
    }
  }

  lemma NotLowerNotSpace(c: char)
    requires IsUpper(c)
    ensures !IsLower(c) && !IsSpace(c)
  {
  }

  /** Two words found in place in `s`, followed only by whitespace, are what
      the scan captures. */
  lemma ScanFindsTwo(s: string, i: nat, j: nat, n: nat)
    requires 0 < i < j < n <= |s|
    requires IsWord(s[..i]) && IsGap(s[i..j]) && IsWord(s[j..n]) && AllSpace(s[n..])
    ensures NameMatch(s) == Some(s[..n])
  {
    assert s[0..i] == s[..i];
    assert IsSpace(s[i]) by { assert s[i] == s[i..j][0]; }
    assert IsUpper(s[j]) by { assert s[j] == s[j..n][0]; }
    NotLowerNotSpace(s[j]);
    assert n < |s| ==> IsSpace(s[n]) by {
      if n < |s| { assert s[n] == s[n..][0]; }
    }
    WordEndFinds(s, 0, i);
    SpaceRunFinds(s, i, j);
    WordEndFinds(s, j, n);
    SpaceRunFinds(s, n, |s|);
  }

  /** Likewise for three words. */
  lemma ScanFindsThree(s: string, i: nat, j: nat, k: nat, l: nat, n: nat)
    requires 0 < i < j < k < l < n <= |s|
    requires IsWord(s[..i]) && IsGap(s[i..j]) && IsWord(s[j..k]) && IsGap(s[k..l]) && IsWord(s[l..n])
    requires AllSpace(s[n..])
    ensures NameMatch(s) == Some(s[..n])
  {
    assert s[0..i] == s[..i];
    assert IsSpace(s[i]) by { assert s[i] == s[i..j][0]; }
    assert IsUpper(s[j]) by { assert s[j] == s[j..k][0]; }
    assert IsSpace(s[k]) by { assert s[k] == s[k..l][0]; }
    assert IsUpper(s[l]) by { assert s[l] == s[l..n][0]; }
    NotLowerNotSpace(s[j]);
    NotLowerNotSpace(s[l]);
    assert n < |s| ==> IsSpace(s[n]) by {
      if n < |s| { assert s[n] == s[n..][0]; }
    }
    WordEndFinds(s, 0, i);
    SpaceRunFinds(s, i, j);
    WordEndFinds(s, j, k);
    SpaceRunFinds(s, k, l);
    WordEndFinds(s, l, n);
    SpaceRunFinds(s, n, |s|);
  }

  lemma CompleteTwo(s: string, g: string, i: nat, j: nat)
    requires |g| <= |s| && g == s[..|g|] && AllSpace(s[|g|..])
    requires 0 < i < j < |g| && IsWord(g[..i]) && IsGap(g[i..j]) && IsWord(g[j..])
    ensures NameMatch(s) == Some(g)
  {
    assert forall t :: 0 <= t < |g| ==> g[t] == s[t];
    assert s[..i] == g[..i];
    assert s[i..j] == g[i..j];
    assert s[j..|g|] == g[j..];
    ScanFindsTwo(s, i, j, |g|);
  }

  lemma CompleteThree(s: string, g: string, i: nat, j: nat, k: nat, l: nat)
    requires |g| <= |s| && g == s[..|g|] && AllSpace(s[|g|..])
    requires 0 < i < j < k < l < |g|
    requires IsWord(g[..i]) && IsGap(g[i..j]) && IsWord(g[j..k]) && IsGap(g[k..l]) && IsWord(g[l..])
    ensures NameMatch(s) == Some(g)
  {
    assert forall t :: 0 <= t < |g| ==> g[t] == s[t];
    assert s[..i] == g[..i];
    assert s[i..j] == g[i..j];
    assert s[j..k] == g[j..k];
    assert s[k..l] == g[k..l];
    assert s[l..|g|] == g[l..];
    ScanFindsThree(s, i, j, k, l, |g|);
  }

  /** Whenever the pattern matches capturing `g`, `NameMatch` captures `g`:
      the greedy scan misses no match and the capture is unique. */
  lemma NameMatchComplete(s: string, g: string)
    requires PatternMatches(s, g)
    ensures NameMatch(s) == Some(g)
  {
    if i, j :| TwoWords(g, i, j) {
      CompleteTwo(s, g, i, j);
    } else {
      var i, j, k, l :| ThreeWords(g, i, j, k, l);
      CompleteThree(s, g, i, j, k, l);
    }
  }

  /** On trimmed text, such as a stripped line, a match captures all of it. */
  lemma WholeTrimmedLine(s: string)
    requires Trimmed(s) && NameMatch(s).Some?
    ensures NameMatch(s) == Some(s)
  {
    var g := NameMatch(s).value;
    NameMatchSound(s);
    if |g| < |s| {
      assert false;
    }
    assert s[..|s|] == s;
  }

  /** On trimmed text the pattern matches exactly when the text has the name
      shape, and then captures all of it. */
  lemma TrimmedMatchIff(s: string)
    requires Trimmed(s)
    ensures NameMatch(s).Some? <==> NameShaped(s)
    ensures NameMatch(s).Some? ==> NameMatch(s) == Some(s)
  {
    if NameMatch(s).Some? {
      WholeTrimmedLine(s);
      NameMatchSound(s);
      assert s[..|s|] == s;
    }
    if NameShaped(s) {
      assert s[..|s|] == s;
      NameMatchComplete(s, s);
    }
  }

  /** What the pattern captures on each stripped line. */
  function LineMatches(lines: seq<string>): (r: seq<Option<string>>)
    ensures |r| == |lines|
    ensures forall i :: 0 <= i < |lines| ==> r[i] == NameMatch(Strip(lines[i]))
  {
    seq(|lines|, i requires 0 <= i < |lines| => NameMatch(Strip(lines[i])))
  }

  /** The scan with early return: the first capture, if any line has one. */
  function FirstMatch(ms: seq<Option<string>>): (r: Option<string>)
    ensures r.Some? ==> exists i :: 0 <= i < |ms| && ms[i] == r && (forall j :: 0 <= j < i ==> ms[j].None?)
    ensures r.None? <==> forall i :: 0 <= i < |ms| ==> ms[i].None?
  {
    if ms == [] then None
    else if ms[0].Some? then ms[0]
    else
      var rest := FirstMatch(ms[1..]);
      assert forall i :: 1 <= i < |ms| ==> ms[i] == ms[1..][i - 1];
      rest
  }

  const ScannedLines := 5

  /** `os.path.splitext(filename)[0].replace('_', ' ').replace('-', ' ').title()`:
      the stem with underscores and hyphens read as spaces, each letter
      upper-cased where it starts a run of letters and lower-cased elsewhere. */
  function FallbackName(filename: string): (r: string)
    ensures |r| == |SplitExt(filename).0|
  {
    Title(ReplaceChar(ReplaceChar(SplitExt(filename).0, '_', ' '), '-', ' '))
  }

  /** The fallback name, character by character: underscores and hyphens
      become spaces, other non-letters stay, and a letter keeps its identity
      while becoming upper-case exactly where it starts a run of letters. */
  lemma FallbackNameShape(filename: string, k: nat)
    requires k < |SplitExt(filename).0|
    ensures var stem, r := SplitExt(filename).0, FallbackName(filename);
      && ((stem[k] == '_' || stem[k] == '-') ==> r[k] == ' ')
      && (!IsLetter(stem[k]) && stem[k] != '_' && stem[k] != '-' ==> r[k] == stem[k])
      && (IsLetter(stem[k]) ==>
            LowerChar(r[k]) == LowerChar(stem[k]) && (IsUpper(r[k]) <==> (k == 0 || !IsLetter(stem[k - 1]))))
  {
    var stem := SplitExt(filename).0;
    var spaced := ReplaceChar(ReplaceChar(stem, '_', ' '), '-', ' ');
    assert IsLetter(spaced[k]) <==> IsLetter(stem[k]);
    assert k > 0 ==> (IsLetter(spaced[k - 1]) <==> IsLetter(stem[k - 1]));
  }

  /** The scan finds the first line whose stripped form has the name shape,
      and returns that stripped line whole. */
  lemma FirstMatchShaped(lines: seq<string>)
    ensures var found := FirstMatch(LineMatches(lines));
      && (found.Some? ==> exists i :: (0 <= i < |lines| && found == Some(Strip(lines[i]))
            && NameShaped(Strip(lines[i])) && forall j :: 0 <= j < i ==> !NameShaped(Strip(lines[j]))))
      && (found.None? <==> forall i :: 0 <= i < |lines| ==> !NameShaped(Strip(lines[i])))
  {
    var ms := LineMatches(lines);
    forall i | 0 <= i < |lines|
      ensures ms[i].Some? <==> NameShaped(Strip(lines[i]))
      ensures ms[i].Some? ==> ms[i] == Some(Strip(lines[i]))
    {
      TrimmedMatchIff(Strip(lines[i]));
    }
  }

  /** `text.split('\n')[:5]`: the lines looked at, the first five at most. */
  function FirstLines(text: string): (r: seq<string>)
    ensures r <= Split(text, '\n')
    ensures |r| == if |Split(text, '\n')| < ScannedLines then |Split(text, '\n')| else ScannedLines
  {
    Prefix(Split(text, '\n'), ScannedLines)
  }

  /** The loop over the lines with its early return, then the fallback. */
  function NameFromLines(lines: seq<string>, filename: string): string {
    match FirstMatch(LineMatches(lines))
    case Some(name) => name
    case None => FallbackName(filename)
  }

  /** `extract_name_from_text(text, filename)`: total, as the source's
      `except` clause makes it. */
  function ExtractName(text: string, filename: string): string {
    NameFromLines(FirstLines(text), filename)
  }

  /** A detected name is a whole stripped line, every earlier one of which
      lacks the name shape; when no line has it, the name comes from the
      filename. */
  lemma NameFromLinesShape(lines: seq<string>, filename: string)
    ensures
      || (exists i :: 0 <= i < |lines|
            && NameFromLines(lines, filename) == Strip(lines[i]) && NameShaped(Strip(lines[i]))
            && forall j :: 0 <= j < i ==> !NameShaped(Strip(lines[j])))
      || (NameFromLines(lines, filename) == FallbackName(filename)
            && forall i :: 0 <= i < |lines| ==> !NameShaped(Strip(lines[i])))
  {
    FirstMatchShaped(lines);
  }

  // ---------------------------------------------------------------------------
  // Readers and process_file
  // ---------------------------------------------------------------------------

  datatype Reader = Pdf | Docx | Txt

  /** What a reader obtains from the file: its raw text, or the exception it
      met. */
  datatype ReadOutcome = Read(raw: string) | Failed(error: string)

  /** The readers' common ending: the stripped text, or "" after a failure. */
  function ReaderText(o: ReadOutcome): (r: string)
    ensures o.Failed? ==> r == []
    ensures o.Read? ==> StrippedFrom(r, o.raw)
  {
    match o
    case Read(raw) => Strip(raw)
    case Failed(_) => []
  }

  /** The reader chosen for a lower-cased extension. */
  function ReaderFor(ext: string): (r: Option<Reader>)
    ensures r == Some(Pdf) <==> ext == ".pdf"
    ensures r == Some(Docx) <==> ext == ".docx"
    ensures r == Some(Txt) <==> ext == ".txt"
  {
    if ext == ".pdf" then Some(Pdf)
    else if ext == ".docx" then Some(Docx)
    else if ext == ".txt" then Some(Txt)
    else None
  }

  /** `process_file(file_path, filename)`, where `contents(reader)` is what
      that reader would obtain from the file. */
  function ProcessFile(filename: string, contents: Reader -> ReadOutcome): (r: (string, string))
    ensures ReaderFor(LowerExt(filename)).None? ==> r == (filename, [])
    ensures ReaderFor(LowerExt(filename)).Some? ==>
      r.1 == ReaderText(contents(ReaderFor(LowerExt(filename)).value))
    ensures r.1 == [] ==> r.0 == filename
    ensures r.1 != [] ==> r.0 == ExtractName(r.1, filename)
  {
    var text := match ReaderFor(LowerExt(filename))
      case Some(reader) => ReaderText(contents(reader))
      case None => [];
    if text == [] then (filename, [])
    else (ExtractName(text, filename), text)
  }

  /** Extracted text is always stripped text, whichever reader produced it. */
  lemma ExtractedTextTrimmed(filename: string, contents: Reader -> ReadOutcome)
    ensures Trimmed(ProcessFile(filename, contents).1)
  {
  }

  lemma SplitExtUpperPdf()
    ensures SplitExt("CV.PDF").1 == ".PDF"
  {
    var f := "CV.PDF";
    assert f[..5] == "CV.PD" && "CV.PD"[..4] == "CV.P" && "CV.P"[..3] == "CV.";
    assert LastIndexOf("CV.", '.') == 2;
    assert LastIndexOf("CV.P", '.') == 2;
    assert LastIndexOf("CV.PD", '.') == 2;
    assert LastIndexOf(f, '.') == 2;
    assert f[..1] == "C" && "C"[..0] == [] && f[..2] == "CV";
    assert LastIndexOf("C", '/') == -1;
    assert LastIndexOf("CV", '/') == -1;
    assert LastIndexOf("CV.", '/') == -1;
    assert LastIndexOf("CV.P", '/') == -1;
    assert LastIndexOf("CV.PD", '/') == -1;
    assert LastIndexOf(f, '/') == -1;
    assert HasNonDot(f, 0, 2) by { assert f[0] != '.'; }
  }

  /** Upper-case extensions pick the same reader: "CV.PDF" goes to the PDF
      reader. */
  lemma UpperCaseExtension(contents: Reader -> ReadOutcome)
    ensures ProcessFile("CV.PDF", contents).1 == ReaderText(contents(Pdf))
  {
    SplitExtUpperPdf();
    assert Lower(".PDF") == ".pdf";
  }
}
