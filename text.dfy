/** The small slice of Python's string methods that the triage app relies on:
    `str.strip()` without arguments, `str.lower()` and the `in` substring test. */
module Text {

  type String = seq<char>

  /** Python's `str.isspace()`: the ASCII controls TAB..CR and FS..US, the space,
      and the Unicode space separators and line/paragraph separators. */
  predicate IsSpace(c: char) {
    || ('\t' <= c <= '\r')
    || ('\U{1C}' <= c <= ' ')
    || c == '\U{85}' || c == '\U{A0}' || c == '\U{1680}'
    || ('\U{2000}' <= c <= '\U{200A}')
    || c == '\U{2028}' || c == '\U{2029}' || c == '\U{202F}' || c == '\U{205F}'
    || c == '\U{3000}'
  }

  predicate AllSpace(s: String) {
    forall k :: 0 <= k < |s| ==> IsSpace(s[k])
  }

  /** Number of whitespace characters at the start of `s`. */
  function LeadingSpaces(s: String): (n: nat)
    ensures n <= |s|
    ensures forall k :: 0 <= k < n ==> IsSpace(s[k])
    ensures n < |s| ==> !IsSpace(s[n])
  {
    if |s| > 0 && IsSpace(s[0]) then 1 + LeadingSpaces(s[1..]) else 0
  }

  /** Number of whitespace characters at the end of `s`. */
  function TrailingSpaces(s: String): (n: nat)
    ensures n <= |s|
    ensures forall k :: |s| - n <= k < |s| ==> IsSpace(s[k])
    ensures n < |s| ==> !IsSpace(s[|s| - n - 1])
  {
    if |s| > 0 && IsSpace(s[|s| - 1]) then 1 + TrailingSpaces(s[..|s| - 1]) else 0
  }

  /** Python's `s.strip()`: the text between the leading and the trailing whitespace. */
  function Strip(s: String): (r: String)
    ensures r == [] <==> AllSpace(s)
    ensures r != [] ==> !IsSpace(r[0]) && !IsSpace(r[|r| - 1])
  {
    var a := LeadingSpaces(s);
    s[a..End(s)]
  }

  /** Where `Strip(s)` ends: before the trailing whitespace, and never before its
      start (an all-whitespace text strips to the empty text at its end). */
  function End(s: String): (b: nat)
    ensures LeadingSpaces(s) <= b <= |s|
  {
    if LeadingSpaces(s) == |s| then |s| else |s| - TrailingSpaces(s)
  }

  /** `r` is `s` with a run of whitespace taken off each end, and `r` neither starts
      nor ends with whitespace: what Python documents `s.strip()` to return. */
  ghost predicate IsStripOf(r: String, s: String) {
    && (exists i, j :: && 0 <= i <= j <= |s| && r == s[i..j]
                       && (forall k :: 0 <= k < i ==> IsSpace(s[k]))
                       && (forall k :: j <= k < |s| ==> IsSpace(s[k])))
    && (r != [] ==> !IsSpace(r[0]) && !IsSpace(r[|r| - 1]))
  }

  lemma StripIsStripOf(s: String)
    ensures IsStripOf(Strip(s), s)
  {
    var a := LeadingSpaces(s);
    if a == |s| {
      assert Strip(s) == s[|s|..|s|];
    } else {
      var b := |s| - TrailingSpaces(s);
      assert Strip(s) == s[a..b];
    }
  }

  /** The guard `not s.strip()`: the text is empty or whitespace only. */
  predicate IsBlank(s: String) {
    Strip(s) == []
  }

  /** A text is blank exactly when every character of it is whitespace. */
  lemma BlankIsAllSpace(s: String)
    ensures IsBlank(s) <==> AllSpace(s)
  {
  }

  lemma NotBlank(s: String)
    requires s != [] && !IsSpace(s[0])
    ensures !IsBlank(s)
  {
  }

  /** Stripping twice is stripping once. */
  lemma StripIdempotent(s: String)
    ensures Strip(Strip(s)) == Strip(s)
  {
    var r := Strip(s);
    if r != [] {
      assert LeadingSpaces(r) == 0;
      assert TrailingSpaces(r) == 0;
    }
  }

  /** The capitals `str.lower()` is modelled on: 'A'..'Z' and the Latin-1 capitals
      U+00C0..U+00DE except the multiplication sign U+00D7. */
  predicate IsCapital(c: char) {
    'A' <= c <= 'Z' || ('\U{C0}' <= c <= '\U{DE}' && c != '\U{D7}')
  }

  /** Python's `str.lower()` on one character: each capital above has its small
      letter 32 code points later. */
  function LowerChar(c: char): char {
    if IsCapital(c) then (c as int + 32) as char else c
  }

  /** Python's `s.lower()`, character by character. */
  function Lower(s: String): String {
    seq(|s|, i requires 0 <= i < |s| => LowerChar(s[i]))
  }

  /** `s.lower()` has the length of `s`, no capital is left in it, and every other
      character of `s` is kept. */
  lemma LowerSpec(s: String)
    ensures |Lower(s)| == |s|
    ensures forall i :: 0 <= i < |s| ==> !IsCapital(Lower(s)[i])
    ensures forall i :: 0 <= i < |s| && !IsCapital(s[i]) ==> Lower(s)[i] == s[i]
  {
  }

  /** Lowering is idempotent: a lowered string has no capitals left. */
  lemma LowerIdempotent(s: String)
    ensures Lower(Lower(s)) == Lower(s)
  {
  }

  /** Lowering neither creates nor removes whitespace. */
  lemma LowerCharSpace(c: char)
    ensures IsSpace(LowerChar(c)) == IsSpace(c)
  {
  }

  lemma LowerSlice(s: String, i: int, j: int)
    requires 0 <= i <= j <= |s|
    ensures Lower(s)[i..j] == Lower(s[i..j])
  {
  }

  lemma {:induction false} LeadingSpacesLower(s: String)
    ensures LeadingSpaces(Lower(s)) == LeadingSpaces(s)
  {
    if |s| > 0 {
      var t := Lower(s);
      LowerCharSpace(s[0]);
      assert t[0] == LowerChar(s[0]);
      if IsSpace(s[0]) {
        assert t[1..] == Lower(s[1..]);
        LeadingSpacesLower(s[1..]);
      }
    }
  }

  lemma {:induction false} TrailingSpacesLower(s: String)
    ensures TrailingSpaces(Lower(s)) == TrailingSpaces(s)
  {
    if |s| > 0 {
      var t := Lower(s);
      LowerCharSpace(s[|s| - 1]);
      assert t[|t| - 1] == LowerChar(s[|s| - 1]);
      if IsSpace(s[|s| - 1]) {
        assert t[..|t| - 1] == Lower(s[..|s| - 1]);
        TrailingSpacesLower(s[..|s| - 1]);
      }
    }
  }

  /** Lowering and stripping commute, so `s.strip().lower()` is `s.lower().strip()`. */
  lemma StripLowerCommute(s: String)
    ensures Strip(Lower(s)) == Lower(Strip(s))
  {
    LeadingSpacesLower(s);
    TrailingSpacesLower(s);
    LowerSlice(s, LeadingSpaces(s), End(s));
  }

  /** `needle` occurs in `hay` starting at index `i`. */
  predicate OccursAt(needle: String, hay: String, i: int) {
    0 <= i && i + |needle| <= |hay| && hay[i..i + |needle|] == needle
  }

  /** Python's `needle in hay` on strings; the empty string occurs in every string. */
  predicate IsSubstring(needle: String, hay: String) {
    exists i | 0 <= i <= |hay| - |needle| :: OccursAt(needle, hay, i)
  }

  /** `needle in hay` holds exactly when `needle` is a contiguous slice of `hay`. */
  lemma SubstringIsSlice(needle: String, hay: String)
    ensures IsSubstring(needle, hay) <==>
      exists i, j :: 0 <= i <= j <= |hay| && hay[i..j] == needle
  {
    if IsSubstring(needle, hay) {
      var i :| 0 <= i <= |hay| - |needle| && OccursAt(needle, hay, i);
      assert hay[i..i + |needle|] == needle;
    }
    if exists i, j :: 0 <= i <= j <= |hay| && hay[i..j] == needle {
      var i, j :| 0 <= i <= j <= |hay| && hay[i..j] == needle;
      assert OccursAt(needle, hay, i);
    }
  }
}
