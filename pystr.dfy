/** The Python string and list operations the services rely on, stated over
    `seq<char>`: `str.isspace`, `str.strip`, slicing `s[:n]`, `p in s`,
    `str.lower`/`str.title` (ASCII letters), `str.split(c)`, `str.replace`,
    `str(int)` and `os.path.splitext`. */
module PyStr {

  // ---------------------------------------------------------------------------
  // Character classes
  // ---------------------------------------------------------------------------

  /** `c.isspace()`: the characters Python treats as whitespace, which are also
      the characters the regular-expression class `\s` matches in a str pattern. */
  predicate IsSpace(c: char) {
    || c == ' ' || ('\t' <= c <= '\r')
    || ('\U{1C}' <= c <= '\U{1F}')
    || c == '\U{85}' || c == '\U{A0}' || c == '\U{1680}'
    || ('\U{2000}' <= c <= '\U{200A}')
    || c == '\U{2028}' || c == '\U{2029}' || c == '\U{202F}' || c == '\U{205F}'
    || c == '\U{3000}'
  }

  /** The regular-expression class `[A-Z]`. */
  predicate IsUpper(c: char) { 'A' <= c <= 'Z' }

  /** The regular-expression class `[a-z]`. */
  predicate IsLower(c: char) { 'a' <= c <= 'z' }

  predicate IsLetter(c: char) { IsUpper(c) || IsLower(c) }

  predicate IsDigit(c: char) { '0' <= c <= '9' }

  function LowerChar(c: char): (r: char)
    ensures IsUpper(c) ==> IsLower(r)
    ensures !IsUpper(c) ==> r == c
  {
    if IsUpper(c) then (c as int + 32) as char else c
  }

  function UpperChar(c: char): (r: char)
    ensures IsLower(c) ==> IsUpper(r)
    ensures !IsLower(c) ==> r == c
  {
    if IsLower(c) then (c as int - 32) as char else c
  }

  predicate AllSpace(s: string) {
    forall k :: 0 <= k < |s| ==> IsSpace(s[k])
  }

  /** No whitespace at either end: what `str.strip` leaves. */
  predicate Trimmed(s: string) {
    s == [] || (!IsSpace(s[0]) && !IsSpace(s[|s| - 1]))
  }

  // ---------------------------------------------------------------------------
  // Slicing
  // ---------------------------------------------------------------------------

  /** Python's `s[:n]` for any integer `n`: a negative `n` drops `-n` items
      from the end, and a bound past the end is clamped. */
  function Prefix<T>(s: seq<T>, n: int): (r: seq<T>)
    ensures r <= s
    ensures 0 <= n ==> |r| == (if n < |s| then n else |s|)
    ensures n < 0 ==> |r| == (if |s| + n > 0 then |s| + n else 0)
  {
    if 0 <= n then (if n < |s| then s[..n] else s)
    else if |s| + n > 0 then s[..|s| + n] else []
  }

  // ---------------------------------------------------------------------------
  // strip
  // ---------------------------------------------------------------------------

  function StripLeft(s: string): (r: string)
    ensures |r| <= |s| && r == s[|s| - |r|..]
    ensures AllSpace(s[..|s| - |r|])
    ensures r == [] || !IsSpace(r[0])
  {
    if |s| > 0 && IsSpace(s[0]) then
      var r := StripLeft(s[1..]);
      assert s[..|s| - |r|] == [s[0]] + s[1..][..|s| - 1 - |r|];
      r
    else s
  }

  function StripRight(s: string): (r: string)
    ensures |r| <= |s| && r == s[..|r|]
    ensures AllSpace(s[|r|..])
    ensures r == [] || !IsSpace(r[|r| - 1])
  {
    if |s| > 0 && IsSpace(s[|s| - 1]) then
      var r := StripRight(s[..|s| - 1]);
      assert s[|r|..] == s[..|s| - 1][|r|..] + [s[|s| - 1]];
      r
    else s
  }

  /** `r` is `s` with a run of whitespace removed from each end, and nothing
      more can be removed: the one result `str.strip` allows. */
  ghost predicate StrippedFrom(r: string, s: string) {
    && Trimmed(r)
    && exists i, j :: 0 <= i <= j <= |s| && r == s[i..j] && AllSpace(s[..i]) && AllSpace(s[j..])
  }

  /** `s.strip()`. */
  function Strip(s: string): (r: string)
    ensures StrippedFrom(r, s)
  {
    var left := StripLeft(s);
    var r := StripRight(left);
    var i := |s| - |left|;
    assert r == s[i..i + |r|];
    assert s[i + |r|..] == left[|r|..];
    assert Trimmed(r) by {
      if r != [] {
        assert r[0] == left[0];
      }
    }
    r
  }

  /** Stripping leaves nothing exactly when the text is all whitespace. */
  lemma StripEmptyIffAllSpace(s: string)
    ensures Strip(s) == [] <==> AllSpace(s)
  {
    var r := Strip(s);
    var i, j :| 0 <= i <= j <= |s| && r == s[i..j] && AllSpace(s[..i]) && AllSpace(s[j..]);
    if r == [] {
      forall k | 0 <= k < |s| ensures IsSpace(s[k]) {
        if k < i { assert s[k] == s[..i][k]; }
        else { assert s[k] == s[j..][k - j]; }
      }
    } else {
      assert s[i] == r[0];
    }
  }

  /** A trimmed text is its own strip, so `strip` is idempotent. */
  lemma {:induction false} StripTrimmed(s: string)
    requires Trimmed(s)
    ensures Strip(s) == s
  {
    assert StripLeft(s) == s;
    assert StripRight(s) == s;
  }

  // ---------------------------------------------------------------------------
  // `p in s`
  // ---------------------------------------------------------------------------

  /** Python's substring test `p in s`. */
  predicate Contains(s: string, p: string)
    decreases |s|
  {
    if |p| > |s| then false
    else s[..|p|] == p || (|s| > 0 && Contains(s[1..], p))
  }

  ghost predicate OccursAt(s: string, p: string, i: int) {
    0 <= i && i + |p| <= |s| && s[i..i + |p|] == p
  }

  /** `p in s` holds exactly when `p` occurs at some position of `s`. */
  lemma {:induction false} ContainsIff(s: string, p: string)
    ensures Contains(s, p) <==> exists i :: OccursAt(s, p, i)
    decreases |s|
  {
    if |p| > |s| {
    } else if s[..|p|] == p {
      assert OccursAt(s, p, 0);
    } else if |s| > 0 {
      ContainsIff(s[1..], p);
      if Contains(s[1..], p) {
        var i :| OccursAt(s[1..], p, i);
        assert s[i + 1..i + 1 + |p|] == s[1..][i..i + |p|];
        assert OccursAt(s, p, i + 1);
      }
      if exists i :: OccursAt(s, p, i) {
        var i :| OccursAt(s, p, i);
        assert i != 0;
        assert s[1..][i - 1..i - 1 + |p|] == s[i..i + |p|];
        assert OccursAt(s[1..], p, i - 1);
      }
    }
  }

  /** A text that starts with the pattern contains it. */
  lemma ContainsPrefix(p: string, s: string)
    ensures Contains(p + s, p)
  {
    assert (p + s)[..|p|] == p;
  }

  /** A pattern whose first character never appears in the text does not occur. */
  lemma FirstCharAbsent(s: string, p: string)
    requires |p| > 0
    requires forall k :: 0 <= k < |s| ==> s[k] != p[0]
    ensures !Contains(s, p)
  {
    ContainsIff(s, p);
  }

  lemma OccursAtHead(s: string, p: string, i: int)
    requires OccursAt(s, p, i) && |p| > 0
    ensures s[i] == p[0]
  {
    assert s[i..i + |p|][0] == s[i];
  }

  predicate NoDigits(s: string) {
    forall k :: 0 <= k < |s| ==> !IsDigit(s[k])
  }

  predicate AllDigits(s: string) {
    forall k :: 0 <= k < |s| ==> IsDigit(s[k])
  }

  /** A run of digits cannot straddle a digit-free prefix: it occurs in
      `a + b` exactly when it occurs in `b`. */
  lemma DigitsAfterPlainPrefix(a: string, b: string, p: string)
    requires NoDigits(a) && AllDigits(p) && |p| > 0
    ensures Contains(a + b, p) <==> Contains(b, p)
  {
    var s := a + b;
    ContainsIff(s, p);
    ContainsIff(b, p);
    if exists i :: OccursAt(s, p, i) {
      var i :| OccursAt(s, p, i);
      assert i >= |a| by {
        OccursAtHead(s, p, i);
      }
      assert b[i - |a|..i - |a| + |p|] == s[i..i + |p|];
      assert OccursAt(b, p, i - |a|);
    }
    if exists i :: OccursAt(b, p, i) {
      var i :| OccursAt(b, p, i);
      assert s[i + |a|..i + |a| + |p|] == b[i..i + |p|];
      assert OccursAt(s, p, i + |a|);
    }
  }

  /** Two texts of the same length contain one another only when equal. */
  lemma SameLengthContains(s: string, p: string)
    requires |s| == |p|
    ensures Contains(s, p) <==> s == p
  {
    ContainsIff(s, p);
    if exists i :: OccursAt(s, p, i) {
      var i :| OccursAt(s, p, i);
      assert i == 0;
    }
    if s == p { assert OccursAt(s, p, 0); }
  }

  // ---------------------------------------------------------------------------
  // lower, title, replace
  // ---------------------------------------------------------------------------

  /** `s.lower()` on ASCII letters. */
  function Lower(s: string): (r: string)
    ensures |r| == |s|
    ensures forall k :: 0 <= k < |s| ==> r[k] == LowerChar(s[k])
  {
    seq(|s|, k requires 0 <= k < |s| => LowerChar(s[k]))
  }

  /** What `str.title` writes at position `k`: a letter that follows a letter is
      lower-cased, any other letter is upper-cased, and non-letters stay. */
  function TitleCharAt(s: string, k: nat, afterLetter: bool): char
    requires k < |s|
  {
    var prevLetter := if k == 0 then afterLetter else IsLetter(s[k - 1]);
    if !IsLetter(s[k]) then s[k]
    else if prevLetter then LowerChar(s[k]) else UpperChar(s[k])
  }

  function TitleFrom(s: string, afterLetter: bool): (r: string)
    ensures |r| == |s|
    ensures forall k :: 0 <= k < |s| ==> r[k] == TitleCharAt(s, k, afterLetter)
  {
    if s == [] then []
    else
      var c := if !IsLetter(s[0]) then s[0] else if afterLetter then LowerChar(s[0]) else UpperChar(s[0]);
      var rest := TitleFrom(s[1..], IsLetter(s[0]));
      assert forall k :: 1 <= k < |s| ==> rest[k - 1] == TitleCharAt(s, k, afterLetter);
      [c] + rest
  }

  /** `s.title()` on ASCII letters. */
  function Title(s: string): (r: string)
    ensures |r| == |s|
    ensures forall k :: 0 <= k < |s| ==> r[k] == TitleCharAt(s, k, false)
  {
    TitleFrom(s, false)
  }

  /** `s.replace(a, b)` for single characters. */
  function ReplaceChar(s: string, a: char, b: char): (r: string)
    ensures |r| == |s|
    ensures forall k :: 0 <= k < |s| ==> r[k] == (if s[k] == a then b else s[k])
  {
    if s == [] then [] else [if s[0] == a then b else s[0]] + ReplaceChar(s[1..], a, b)
  }

  /** `s.replace(pat, rep)`: every non-overlapping occurrence, left to right. */
  function ReplaceAll(s: string, pat: string, rep: string): string
    requires |pat| > 0
    decreases |s|
  {
    if |s| < |pat| then s
    else if s[..|pat|] == pat then rep + ReplaceAll(s[|pat|..], pat, rep)
    else [s[0]] + ReplaceAll(s[1..], pat, rep)
  }

  // ---------------------------------------------------------------------------
  // str(int)
  // ---------------------------------------------------------------------------

  function DigitChar(d: nat): (c: char)
    requires d < 10
    ensures IsDigit(c)
  {
    ('0' as int + d) as char
  }

  function NatToString(n: nat): (r: string)
    ensures |r| >= 1 && AllDigits(r)
    ensures n < 10 <==> |r| == 1
  {
    if n < 10 then [DigitChar(n)] else NatToString(n / 10) + [DigitChar(n % 10)]
  }

  /** `str(i)` for an integer. */
  function IntToString(i: int): (r: string)
    ensures |r| >= 1
    ensures 0 <= i ==> AllDigits(r)
  {
    if i < 0 then "-" + NatToString(-i) else NatToString(i)
  }

  /** A three-digit number prints as its three digits. */
  lemma ThreeDigits(n: nat)
    requires 100 <= n < 1000
    ensures IntToString(n) == [DigitChar(n / 100), DigitChar(n / 10 % 10), DigitChar(n % 10)]
  {
    assert NatToString(n / 10) == NatToString(n / 10 / 10) + [DigitChar(n / 10 % 10)];
    assert n / 10 / 10 == n / 100;
  }

  /** Printing is injective on three-digit numbers. */
  lemma ThreeDigitsInjective(m: nat, n: nat)
    requires 100 <= m < 1000 && 100 <= n < 1000
    ensures IntToString(m) == IntToString(n) <==> m == n
  {
    ThreeDigits(m);
    ThreeDigits(n);
    if IntToString(m) == IntToString(n) {
      var a, b := IntToString(m), IntToString(n);
      assert a[0] == b[0] && a[1] == b[1] && a[2] == b[2];
      DigitCharInjective(m / 100, n / 100);
      DigitCharInjective(m / 10 % 10, n / 10 % 10);
      DigitCharInjective(m % 10, n % 10);
      Decompose(m);
      Decompose(n);
    }
  }

  lemma DigitCharInjective(a: nat, b: nat)
    requires a < 10 && b < 10 && DigitChar(a) == DigitChar(b)
    ensures a == b
  {
  }

  /** A three-digit number is the sum of its weighted digits. */
  lemma Decompose(n: nat)
    requires 100 <= n < 1000
    ensures n == 100 * (n / 100) + 10 * (n / 10 % 10) + n % 10
  {
    assert n == 10 * (n / 10) + n % 10;
    assert n / 10 == 10 * (n / 10 / 10) + n / 10 % 10;
    assert n / 10 / 10 == n / 100;
  }

  // ---------------------------------------------------------------------------
  // split and join
  // ---------------------------------------------------------------------------

  /** `s.split(c)`: the pieces between occurrences of `c`; never empty. */
  function Split(s: string, c: char): (parts: seq<string>)
    ensures |parts| >= 1
    ensures forall k :: 0 <= k < |parts| ==> c !in parts[k]
  {
    if s == [] then [[]]
    else
      var rest := Split(s[1..], c);
      if s[0] == c then [[]] + rest else [[s[0]] + rest[0]] + rest[1..]
  }

  /** `c.join(parts)`. */
  function Join(parts: seq<string>, c: char): string
    requires |parts| >= 1
  {
    if |parts| == 1 then parts[0] else parts[0] + [c] + Join(parts[1..], c)
  }

  /** Joining the pieces of a split gives back the text. */
  lemma {:induction false} JoinSplit(s: string, c: char)
    ensures Join(Split(s, c), c) == s
  {
    if s != [] {
      var rest := Split(s[1..], c);
      JoinSplit(s[1..], c);
      if s[0] != c {
        var parts := [[s[0]] + rest[0]] + rest[1..];
        if |rest| > 1 {
          assert parts[1..] == rest[1..];
          assert Join(parts, c) == [s[0]] + (rest[0] + [c] + Join(rest[1..], c));
        }
      } else {
        assert ([[]] + rest)[1..] == rest;
      }
    }
  }

  /** Splitting a join of separator-free pieces gives back the pieces. */
  lemma {:induction false} SplitJoin(parts: seq<string>, c: char)
    requires |parts| >= 1
    requires forall k :: 0 <= k < |parts| ==> c !in parts[k]
    ensures Split(Join(parts, c), c) == parts
    decreases |parts|, |parts[0]|
  {
    var p := parts[0];
    if p == [] {
      if |parts| > 1 {
        SplitJoin(parts[1..], c);
        var s := Join(parts, c);
        assert s == [c] + Join(parts[1..], c);
        assert s[1..] == Join(parts[1..], c);
        assert [[]] + parts[1..] == parts;
      }
    } else {
      var tail := [p[1..]] + parts[1..];
      assert tail[1..] == parts[1..];
      SplitJoin(tail, c);
      var s := Join(parts, c);
      assert c !in p && p[0] != c by { assert p[0] in p; }
      if |parts| > 1 {
        assert s[1..] == Join(tail, c);
      } else {
        assert s[1..] == Join(tail, c);
      }
      var rest := Split(s[1..], c);
      assert rest == tail;
      assert s[0] == p[0];
      assert [p[0]] + p[1..] == p;
      assert Split(s, c) == [[p[0]] + rest[0]] + rest[1..];
      assert [[p[0]] + rest[0]] + rest[1..] == parts;
    }
  }

  // ---------------------------------------------------------------------------
  // os.path.splitext
  // ---------------------------------------------------------------------------

  /** `s.rfind(c)`: the last position of `c`, or -1. */
  function LastIndexOf(s: string, c: char): (r: int)
    ensures -1 <= r < |s|
    ensures r >= 0 ==> s[r] == c
    ensures forall k :: r < k < |s| ==> s[k] != c
  {
    if |s| == 0 then -1
    else if s[|s| - 1] == c then |s| - 1
    else LastIndexOf(s[..|s| - 1], c)
  }

  predicate HasNonDot(s: string, lo: int, hi: int)
    requires 0 <= lo && hi <= |s|
  {
    exists k :: lo <= k < hi && s[k] != '.'
  }

  /** `os.path.splitext(p)` on a POSIX path: the extension starts at the last
      dot of the last path component, unless every character of that
      component before the dot is itself a dot. */
  function SplitExt(p: string): (r: (string, string))
    ensures r.0 + r.1 == p
    ensures r.1 == [] || (r.1[0] == '.' && '.' !in r.1[1..] && '/' !in r.1)
  {
    var sepIndex := LastIndexOf(p, '/');
    var dotIndex := LastIndexOf(p, '.');
    if dotIndex > sepIndex && HasNonDot(p, sepIndex + 1, dotIndex) then
      assert p[dotIndex..][1..] == p[dotIndex + 1..];
      (p[..dotIndex], p[dotIndex..])
    else (p, [])
  }

  /** The lower-cased extension, as both the upload check and the extractor
      compute it: `os.path.splitext(name)[1].lower()`. */
  function LowerExt(filename: string): (r: string)
    ensures |r| == |SplitExt(filename).1|
  {
    Lower(SplitExt(filename).1)
  }
}
