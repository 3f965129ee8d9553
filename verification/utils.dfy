/**
 * The string helpers of the scraper's `Utils` object: `sanitize` (drop
 * markup-looking spans, then trim) and `truncate` (cut and add an ellipsis),
 * together with the JavaScript string built-ins they rely on.
 */
module Utils {

  /**
   * The code points `String.prototype.trim` strips: ECMAScript WhiteSpace
   * (tab, vertical tab, form feed, space, no-break space, byte order mark and
   * the Unicode space separators) and LineTerminator (LF, CR, LS, PS).
   */
  predicate IsWhitespace(c: char) {
    if c <= ' ' then c == ' ' || '\t' <= c <= '\r'
    else if c < '\U{00A0}' then false
    else if c < '\U{2000}' then c == '\U{00A0}' || c == '\U{1680}'
    else if c <= '\U{200A}' then true
    else c == '\U{2028}' || c == '\U{2029}' || c == '\U{202F}' || c == '\U{205F}' || c == '\U{3000}' || c == '\U{FEFF}'
  }

  /** `s.startsWith(prefix)`: the first characters of `s` are, one by one, those of `prefix`. */
  predicate StartsWith(s: string, prefix: string)
    ensures StartsWith(s, prefix) <==> |prefix| <= |s| && forall i :: 0 <= i < |prefix| ==> s[i] == prefix[i]
  {
    |prefix| <= |s| && s[..|prefix|] == prefix
  }

  /** `s.includes(part)`: `part` occurs somewhere in `s`, so it is no longer than `s`. */
  predicate Contains(s: string, part: string)
    ensures Contains(s, part) ==> |part| <= |s|
  {
    StartsWith(s, part) || (s != [] && Contains(s[1..], part))
  }

  /** `part` is the slice of `s` that starts at index `i`. */
  predicate OccursAt(s: string, part: string, i: int) {
    0 <= i <= |s| - |part| && s[i..i + |part|] == part
  }

  /** `Contains` holds exactly when `part` is one of the contiguous slices of `s`. */
  lemma ContainsIffOccurs(s: string, part: string)
    ensures Contains(s, part) <==> exists i :: OccursAt(s, part, i)
  {
    if Contains(s, part) {
      var i := ContainsAt(s, part);
      assert OccursAt(s, part, i);
    }
    if i :| OccursAt(s, part, i) {
      OccursContains(s, part, i);
    }
  }

  /** Where `part` occurs in `s` when `Contains` says it does. */
  lemma {:induction false} ContainsAt(s: string, part: string) returns (i: nat)
    requires Contains(s, part)
    ensures i <= |s| - |part| && s[i..i + |part|] == part
  {
    if StartsWith(s, part) {
      i := 0;
    } else {
      var k := ContainsAt(s[1..], part);
      assert s[k + 1..k + 1 + |part|] == s[1..][k..k + |part|];
      i := k + 1;
    }
  }

  /** A slice of `s` equal to `part` makes `Contains` hold. */
  lemma {:induction false} OccursContains(s: string, part: string, i: nat)
    requires i <= |s| - |part| && s[i..i + |part|] == part
    ensures Contains(s, part)
  {
    if i == 0 {
      assert s[..|part|] == s[0..0 + |part|];
    } else {
      assert s[1..][i - 1..i - 1 + |part|] == s[i..i + |part|];
      OccursContains(s[1..], part, i - 1);
    }
  }

  /** Leading whitespace removed: what is left is a suffix of `s`. */
  function TrimStart(s: string): (r: string)
    ensures |r| <= |s| && r == s[|s| - |r|..]
  {
    if s != [] && IsWhitespace(s[0]) then TrimStart(s[1..]) else s
  }

  /** Trailing whitespace removed: what is left is a prefix of `s`. */
  function TrimEnd(s: string): (r: string)
    ensures |r| <= |s| && r == s[..|r|]
  {
    if s != [] && IsWhitespace(s[|s| - 1]) then TrimEnd(s[..|s| - 1]) else s
  }

  /** Everything `TrimStart` cuts is whitespace, and what it keeps does not start with whitespace. */
  lemma {:induction false} TrimStartCutsWhitespace(s: string)
    ensures forall i :: 0 <= i < |s| - |TrimStart(s)| ==> IsWhitespace(s[i])
    ensures TrimStart(s) != [] ==> !IsWhitespace(TrimStart(s)[0])
  {
    if s != [] && IsWhitespace(s[0]) {
      TrimStartCutsWhitespace(s[1..]);
      forall i | 1 <= i < |s| - |TrimStart(s)| ensures IsWhitespace(s[i]) {
        assert s[i] == s[1..][i - 1];
      }
    }
  }

  /** Everything `TrimEnd` cuts is whitespace, and what it keeps does not end with whitespace. */
  lemma {:induction false} TrimEndCutsWhitespace(s: string)
    ensures forall i :: |TrimEnd(s)| <= i < |s| ==> IsWhitespace(s[i])
    ensures TrimEnd(s) != [] ==> !IsWhitespace(TrimEnd(s)[|TrimEnd(s)| - 1])
  {
    if s != [] && IsWhitespace(s[|s| - 1]) {
      TrimEndCutsWhitespace(s[..|s| - 1]);
      forall i | |TrimEnd(s)| <= i < |s| - 1 ensures IsWhitespace(s[i]) {
        assert s[i] == s[..|s| - 1][i];
      }
    }
  }

  /** `s.trim()`: whitespace cut at both ends. */
  function Trim(s: string): (r: string)
    ensures |r| <= |s|
  {
    TrimEnd(TrimStart(s))
  }

  /** What `Trim` returns has no whitespace at either end. */
  lemma TrimLeavesNoOuterWhitespace(s: string)
    ensures Trim(s) != [] ==> !IsWhitespace(Trim(s)[0]) && !IsWhitespace(Trim(s)[|Trim(s)| - 1])
  {
    var t := TrimStart(s);
    TrimStartCutsWhitespace(s);
    TrimEndCutsWhitespace(t);
    if Trim(s) != [] {
      assert Trim(s)[0] == t[0];
    }
  }

  /** What `Trim` keeps is one contiguous slice of its input, starting where `TrimStart` stopped. */
  lemma TrimIsSlice(s: string)
    ensures |s| - |TrimStart(s)| + |Trim(s)| <= |s|
    ensures Trim(s) == s[|s| - |TrimStart(s)|..|s| - |TrimStart(s)| + |Trim(s)|]
  {
    var t := TrimStart(s);
    var r := TrimEnd(t);
    var start := |s| - |t|;
    assert t == s[start..];
    assert r == t[..|r|];
  }

  /** Only whitespace is cut, on either side of the slice `Trim` keeps. */
  lemma TrimCutsWhitespace(s: string)
    ensures forall i :: 0 <= i < |s| - |TrimStart(s)| ==> IsWhitespace(s[i])
    ensures forall i :: |s| - |TrimStart(s)| + |Trim(s)| <= i < |s| ==> IsWhitespace(s[i])
  {
    TrimStartCutsWhitespace(s);
    TrimCutsTrailingWhitespace(s);
  }

  /** The trailing half of `TrimCutsWhitespace`, in the coordinates of the untrimmed text. */
  lemma TrimCutsTrailingWhitespace(s: string)
    ensures forall i :: |s| - |TrimStart(s)| + |Trim(s)| <= i < |s| ==> IsWhitespace(s[i])
  {
    SuffixTrimEndCutsWhitespace(s, TrimStart(s));
  }

  /** What `TrimEnd` cuts from a suffix `t` of `s` is whitespace, counted in the positions of `s`. */
  lemma SuffixTrimEndCutsWhitespace(s: string, t: string)
    requires |t| <= |s| && t == s[|s| - |t|..]
    ensures forall i :: |s| - |t| + |TrimEnd(t)| <= i < |s| ==> IsWhitespace(s[i])
  {
    var k := |s| - |t|;
    TrimEndCutsWhitespace(t);
    forall i | k + |TrimEnd(t)| <= i < |s| ensures IsWhitespace(s[i]) {
      assert s[i] == t[i - k];
    }
  }

  /** No `<` in `s` is followed, anywhere later, by a `>`. */
  predicate NoTagSpan(s: string) {
    forall i, j :: 0 <= i < j < |s| ==> !(s[i] == '<' && s[j] == '>')
  }

  /** What follows the first `>` of `s`: the cut is right after a `>`, and no `>` comes before it. */
  function AfterClose(s: string): (r: string)
    requires '>' in s
    ensures |r| < |s| && r == s[|s| - |r|..]
    ensures s[|s| - |r| - 1] == '>' && '>' !in s[..|s| - |r| - 1]
  {
    if s[0] == '>' then s[1..] else AfterClose(s[1..])
  }

  /**
   * `s.replace(/<[^>]*>/g, '')`: scanning left to right, every `<` that has a
   * `>` somewhere after it is removed together with everything up to and
   * including the first such `>`; a `<` with no `>` after it stays.
   */
  function StripTags(s: string): (r: string)
    ensures |r| <= |s|
    ensures forall c :: c in r ==> c in s
    decreases |s|
  {
    if s == [] then []
    else if s[0] == '<' && '>' in s[1..] then StripTags(AfterClose(s[1..]))
    else [s[0]] + StripTags(s[1..])
  }

  /** What `StripTags` leaves has no `<` with a `>` after it. */
  lemma {:induction false} StripTagsLeavesNoTagSpan(s: string)
    ensures NoTagSpan(StripTags(s))
    decreases |s|
  {
    if s == [] {
    } else if s[0] == '<' && '>' in s[1..] {
      StripTagsLeavesNoTagSpan(AfterClose(s[1..]));
    } else {
      var rest := StripTags(s[1..]);
      var r := [s[0]] + rest;
      StripTagsLeavesNoTagSpan(s[1..]);
      forall i, j | 0 <= i < j < |r| ensures !(r[i] == '<' && r[j] == '>') {
        assert r[j] == rest[j - 1];
        if i == 0 {
          if s[0] == '<' {
            assert rest[j - 1] in rest;
          }
        } else {
          assert r[i] == rest[i - 1];
        }
      }
    }
  }

  /** A character that does not open a span survives, and stripping goes on after it. */
  lemma StripTagsKeepsChar(c: char, s: string)
    requires c != '<' || '>' !in s
    ensures StripTags([c] + s) == [c] + StripTags(s)
  {
    assert ([c] + s)[0] == c && ([c] + s)[1..] == s;
  }

  /** A span `<`, then characters other than `>`, then `>` disappears, and stripping goes on after it. */
  lemma StripTagsDropsSpan(m: string, s: string)
    requires '>' !in m
    ensures StripTags(['<'] + m + ['>'] + s) == StripTags(s)
  {
    var t := ['<'] + m + ['>'] + s;
    assert t[1..] == m + ['>'] + s;
    assert t[1..][|m|] == '>';
    AfterCloseSkips(m, s);
  }

  /** The first `>` after a run without one is the end of that run. */
  lemma {:induction false} AfterCloseSkips(m: string, s: string)
    requires '>' !in m
    ensures '>' in m + ['>'] + s && AfterClose(m + ['>'] + s) == s
  {
    var t := m + ['>'] + s;
    assert t[|m|] == '>';
    if m != [] {
      assert t[1..] == m[1..] + ['>'] + s;
      assert '>' !in m[1..];
      AfterCloseSkips(m[1..], s);
    }
  }

  /** The replacement on a small input: `a<b>c` becomes `ac`. */
  lemma StripTagsExample()
    ensures StripTags("a<b>c") == "ac"
  {
    assert "a<b>c" == ['a'] + (['<'] + "b" + ['>'] + "c");
    StripTagsKeepsChar('a', ['<'] + "b" + ['>'] + "c");
    StripTagsDropsSpan("b", "c");
    assert "c" == ['c'] + [];
    StripTagsKeepsChar('c', []);
  }

  /** Without a `>` there is nothing to strip. */
  lemma {:induction false} NoCloseUnchanged(s: string)
    requires '>' !in s
    ensures StripTags(s) == s
    decreases |s|
  {
    if s != [] {
      assert '>' !in s[1..];
      NoCloseUnchanged(s[1..]);
    }
  }

  /** Text whose every `<` lacks a later `>` is left exactly as it is, so stripping twice strips nothing more. */
  lemma {:induction false} StripTagsFixpoint(s: string)
    requires NoTagSpan(s)
    ensures StripTags(s) == s
    decreases |s|
  {
    if s != [] {
      if s[0] == '<' {
        assert '>' !in s[1..] by {
          forall j | 0 <= j < |s[1..]| ensures s[1..][j] != '>' {
            assert s[1 + j] == s[1..][j];
          }
        }
        NoCloseUnchanged(s[1..]);
      } else {
        assert NoTagSpan(s[1..]) by {
          forall i, j | 0 <= i < j < |s[1..]| ensures !(s[1..][i] == '<' && s[1..][j] == '>') {
            assert s[1..][i] == s[i + 1] && s[1..][j] == s[j + 1];
          }
        }
        StripTagsFixpoint(s[1..]);
      }
    }
  }

  /**
   * `Utils.sanitize`: markup spans removed, then trimmed. The result is never
   * longer than the input; `SanitizeIsClean` states what it no longer holds.
   */
  function Sanitize(text: string): (r: string)
    ensures |r| <= |text|
  {
    Trim(StripTags(text))
  }

  /** What `Sanitize` returns has no whitespace at either end and no `<` followed later by a `>`. */
  lemma SanitizeIsClean(text: string)
    ensures var r := Sanitize(text);
      && (r != [] ==> !IsWhitespace(r[0]) && !IsWhitespace(r[|r| - 1]))
      && NoTagSpan(r)
  {
    StripTagsLeavesNoTagSpan(text);
    TrimKeepsNoTagSpan(StripTags(text));
    TrimLeavesNoOuterWhitespace(StripTags(text));
  }

  /** Trimming text without markup spans leaves none, and never lengthens it. */
  lemma TrimKeepsNoTagSpan(s: string)
    requires NoTagSpan(s)
    ensures NoTagSpan(Trim(s)) && |Trim(s)| <= |s|
  {
    var t := TrimStart(s);
    SliceKeepsNoTagSpan(s, |s| - |t|, |s|, t);
    var r := TrimEnd(t);
    SliceKeepsNoTagSpan(t, 0, |r|, r);
  }

  /** A contiguous piece of text without markup spans has none either. */
  lemma SliceKeepsNoTagSpan(s: string, lo: int, hi: int, t: string)
    requires NoTagSpan(s) && 0 <= lo <= hi <= |s| && t == s[lo..hi]
    ensures NoTagSpan(t)
  {
    forall i, j | 0 <= i < j < |t| ensures !(t[i] == '<' && t[j] == '>') {
      assert t[i] == s[lo + i] && t[j] == s[lo + j];
    }
  }

  /**
   * Text that has no markup span and no whitespace at either end is returned
   * exactly as it is: sanitizing removes nothing but spans and outer whitespace.
   */
  lemma SanitizeKeepsCleanText(text: string)
    requires NoTagSpan(text)
    requires text != [] ==> !IsWhitespace(text[0]) && !IsWhitespace(text[|text| - 1])
    ensures Sanitize(text) == text
  {
    StripTagsFixpoint(text);
    assert TrimStart(text) == text;
    assert TrimEnd(text) == text;
  }

  /** Sanitizing already sanitized text changes nothing. */
  lemma SanitizeIdempotent(text: string)
    ensures Sanitize(Sanitize(text)) == Sanitize(text)
  {
    SanitizeIsClean(text);
    SanitizeKeepsCleanText(Sanitize(text));
  }

  /** Sanitizing a small input: the span goes and the text around it stays. */
  lemma SanitizeExample()
    ensures Sanitize("a<b>c") == "ac"
  {
    StripTagsExample();
    assert !IsWhitespace('a') && !IsWhitespace('c');
  }

  /**
   * `Utils.truncate(text, length)`: text of at most `length` characters is
   * returned unchanged; longer text keeps its first `length` characters
   * followed by "...", which makes it exactly `length + 3` long.
   */
  function Truncate(text: string, length: nat): (r: string)
    ensures |text| <= length ==> r == text
    ensures |text| > length ==> |r| == length + 3 && r[..length] == text[..length] && r[length..] == "..."
    ensures |r| <= length + 3
  {
    if |text| > length then text[..length] + "..." else text
  }

  /** Truncating a truncated text again with the same length gives it back unchanged. */
  lemma TruncateIdempotent(text: string, length: nat)
    ensures Truncate(Truncate(text, length), length) == Truncate(text, length)
  {
    if |text| > length {
      var r := Truncate(text, length);
      assert r[..length] == text[..length];
    }
  }
}
