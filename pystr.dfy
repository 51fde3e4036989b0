/**
  The few Python string operations the transcriber relies on: str.isspace,
  str.strip, str.rstrip(c), str.rfind(c) and str.startswith, as pure functions
  on seq<char>.
 */
module PyStr {

  /** str.isspace() on one character: the ASCII controls TAB..CR and FS..US,
      SPACE, NEL, NO-BREAK SPACE and the Unicode space and line separators. */
  predicate IsSpace(c: char)
  {
    || ('\t' <= c && c <= '\r')
    || ('\U{1c}' <= c && c <= '\U{1f}')
    || c == ' ' || c == '\U{85}' || c == '\U{a0}' || c == '\U{1680}'
    || ('\U{2000}' <= c && c <= '\U{200a}')
    || c == '\U{2028}' || c == '\U{2029}' || c == '\U{202f}' || c == '\U{205f}' || c == '\U{3000}'
  }

  /** s.startswith(prefix) */
  predicate StartsWith(s: string, prefix: string)
  {
    |prefix| <= |s| && s[..|prefix|] == prefix
  }

  /** Every character of s is c (true of the empty string). */
  predicate Only(s: string, c: char)
  {
    forall k :: 0 <= k < |s| ==> s[k] == c
  }

  /** s.rfind(c): the index of the last occurrence of c in s, or -1 when there is none. */
  function RFind(s: string, c: char): (i: int)
    ensures -1 <= i < |s|
    ensures 0 <= i ==> s[i] == c
    ensures forall k :: i < k < |s| ==> s[k] != c
  {
    if |s| == 0 then -1
    else if s[|s| - 1] == c then |s| - 1
    else RFind(s[..|s| - 1], c)
  }

  /** RFind is determined by its contract: an index holding c with no c after it. */
  lemma RFindUnique(s: string, c: char, i: int)
    requires -1 <= i < |s|
    requires 0 <= i ==> s[i] == c
    requires forall k :: i < k < |s| ==> s[k] != c
    ensures RFind(s, c) == i
  {
  }

  /** Cutting s after its last c does not move the last c. */
  lemma RFindPrefix(s: string, c: char, n: nat)
    requires RFind(s, c) < n <= |s|
    ensures RFind(s[..n], c) == RFind(s, c)
  {
    RFindUnique(s[..n], c, RFind(s, c));
  }

  /** Appending a text without c does not move the last c. */
  lemma RFindAppend(s: string, t: string, c: char)
    requires c !in t
    ensures RFind(s + t, c) == RFind(s, c)
  {
    var i := RFind(s, c);
    forall k | i < k < |s + t| ensures (s + t)[k] != c {
      if k < |s| {
        assert (s + t)[k] == s[k];
      } else {
        assert (s + t)[k] == t[k - |s|];
      }
    }
    RFindUnique(s + t, c, i);
  }

  /** The last c of s + [c] + t, when t holds no c, is the one in the middle. */
  lemma RFindMarked(s: string, c: char, t: string)
    requires c !in t
    ensures RFind(s + [c] + t, c) == |s|
  {
    RFindAppend(s + [c], t, c);
    assert (s + [c])[|s|] == c;
    RFindUnique(s + [c], c, |s|);
  }

  /** s.lstrip(): s without its leading whitespace (LStripFacts). */
  function LStrip(s: string): (r: string)
    ensures |r| <= |s|
  {
    if s != [] && IsSpace(s[0]) then LStrip(s[1..]) else s
  }

  /** s.rstrip(): s without its trailing whitespace (RStripFacts). */
  function RStrip(s: string): (r: string)
    ensures |r| <= |s|
  {
    if s != [] && IsSpace(s[|s| - 1]) then RStrip(s[..|s| - 1]) else s
  }

  /** LStrip removes a run of whitespace from the front of s, and all of it. */
  lemma {:induction false} LStripFacts(s: string)
    ensures LStrip(s) == s[|s| - |LStrip(s)|..]
    ensures forall k :: 0 <= k < |s| - |LStrip(s)| ==> IsSpace(s[k])
    ensures LStrip(s) != [] ==> !IsSpace(LStrip(s)[0])
  {
    if s != [] && IsSpace(s[0]) {
      LStripFacts(s[1..]);
      forall k | 1 <= k < |s| - |LStrip(s)| ensures IsSpace(s[k]) {
        assert s[k] == s[1..][k - 1];
      }
    }
  }

  /** RStrip removes a run of whitespace from the end of s, and all of it. */
  lemma {:induction false} RStripFacts(s: string)
    ensures RStrip(s) == s[..|RStrip(s)|]
    ensures forall k :: |RStrip(s)| <= k < |s| ==> IsSpace(s[k])
    ensures RStrip(s) != [] ==> !IsSpace(RStrip(s)[|RStrip(s)| - 1])
  {
    if s != [] && IsSpace(s[|s| - 1]) {
      RStripFacts(s[..|s| - 1]);
      forall k | |RStrip(s)| <= k < |s| - 1 ensures IsSpace(s[k]) {
        assert s[k] == s[..|s| - 1][k];
      }
    }
  }

  /** The index of the last character of s other than c, or -1 when there is none. */
  function LastOther(s: string, c: char): (i: int)
    ensures -1 <= i < |s|
    ensures 0 <= i ==> s[i] != c
    ensures forall k :: i < k < |s| ==> s[k] == c
  {
    if |s| == 0 then -1
    else if s[|s| - 1] != c then |s| - 1
    else LastOther(s[..|s| - 1], c)
  }

  /** s.rstrip(c): s without the run of c it ends with. */
  function RStripChar(s: string, c: char): (r: string)
    ensures |r| <= |s| && r == s[..|r|]
    ensures forall k :: |r| <= k < |s| ==> s[k] == c
    ensures r != [] ==> r[|r| - 1] != c
  {
    s[..LastOther(s, c) + 1]
  }

  /** r = s[lo..hi], everything outside lo..hi is whitespace, and r neither
      starts nor ends with whitespace. */
  ghost predicate TrimmedAt(s: string, lo: int, hi: int, r: string)
  {
    && 0 <= lo <= hi <= |s|
    && r == s[lo..hi]
    && (forall k :: 0 <= k < lo ==> IsSpace(s[k]))
    && (forall k :: hi <= k < |s| ==> IsSpace(s[k]))
    && (r != [] ==> !IsSpace(r[0]) && !IsSpace(r[|r| - 1]))
  }

  /** r is s with its leading and trailing whitespace removed. */
  ghost predicate IsStripOf(r: string, s: string)
  {
    exists lo, hi :: TrimmedAt(s, lo, hi, r)
  }

  /** s.strip(): StripIsTrim and StripCharacterized state what it removes. */
  function Strip(s: string): string
  {
    LStrip(RStrip(s))
  }

  /** Strip removes whitespace at the two ends of s and nothing else. */
  lemma StripIsTrim(s: string)
    ensures IsStripOf(Strip(s), s)
  {
    var t := RStrip(s);
    var u := LStrip(t);
    RStripFacts(s);
    LStripFacts(t);
    assert u == s[|t| - |u|..|t|];
    forall k | 0 <= k < |t| - |u| ensures IsSpace(s[k]) {
      assert s[k] == t[k];
    }
    if u != [] {
      assert u[|u| - 1] == t[|t| - 1];
    }
    assert TrimmedAt(s, |t| - |u|, |t|, u);
  }

  /** In a non-empty trim, lo is the first non-whitespace index and hi - 1 the last. */
  lemma TrimEdges(s: string, lo: int, hi: int, r: string)
    requires TrimmedAt(s, lo, hi, r) && r != []
    ensures lo < hi && !IsSpace(s[lo]) && !IsSpace(s[hi - 1])
  {
    assert r[0] == s[lo] && r[|r| - 1] == s[hi - 1];
  }

  /** An empty trim means s is whitespace throughout. */
  lemma TrimEmpty(s: string, lo: int, hi: int, k: int)
    requires TrimmedAt(s, lo, hi, []) && 0 <= k < |s|
    ensures IsSpace(s[k])
  {
    assert k < lo || hi <= k;
  }

  /** Two trims of the same string agree. */
  lemma TrimUnique(s: string, lo1: int, hi1: int, r1: string, lo2: int, hi2: int, r2: string)
    requires TrimmedAt(s, lo1, hi1, r1) && TrimmedAt(s, lo2, hi2, r2)
    ensures r1 == r2
  {
    if r1 == [] && r2 != [] {
      TrimEdges(s, lo2, hi2, r2);
      TrimEmpty(s, lo1, hi1, lo2);
    } else if r1 != [] && r2 == [] {
      TrimEdges(s, lo1, hi1, r1);
      TrimEmpty(s, lo2, hi2, lo1);
    } else if r1 != [] {
      TrimEdges(s, lo1, hi1, r1);
      TrimEdges(s, lo2, hi2, r2);
      assert lo1 == lo2 && hi1 == hi2;
    }
  }

  /** Strip is exactly "remove leading and trailing whitespace": it returns r
      if and only if r is such a trim of s. */
  lemma StripCharacterized(s: string, r: string)
    ensures IsStripOf(r, s) <==> r == Strip(s)
  {
    StripIsTrim(s);
    if IsStripOf(r, s) {
      var lo1, hi1 :| TrimmedAt(s, lo1, hi1, r);
      var lo2, hi2 :| TrimmedAt(s, lo2, hi2, Strip(s));
      TrimUnique(s, lo1, hi1, r, lo2, hi2, Strip(s));
    }
  }

  /** A stripped string has no whitespace at either end, and stripping it again changes nothing. */
  lemma StripIdempotent(s: string)
    ensures Strip(s) != [] ==> !IsSpace(Strip(s)[0]) && !IsSpace(Strip(s)[|Strip(s)| - 1])
    ensures Strip(Strip(s)) == Strip(s)
  {
    var r := Strip(s);
    StripIsTrim(s);
    var lo, hi :| TrimmedAt(s, lo, hi, r);
    assert TrimmedAt(r, 0, |r|, r);
    StripCharacterized(r, r);
  }
}
