/**
  * The character-level rules the lexer relies on: Python's `str.split()` with
  * no argument, and the three regular expressions of Code/spl.py:28-30 written
  * out as predicates on strings.
  */
module Patterns {

  /** Python's `str.isspace()`: the characters `str.split()` separates on. */
  predicate IsSpace(c: char) {
    var n := c as int;
    (9 <= n <= 13) || (0x1C <= n <= 0x20) || n == 0x85 || n == 0xA0 || n == 0x1680
    || (0x2000 <= n <= 0x200A) || n == 0x2028 || n == 0x2029 || n == 0x202F
    || n == 0x205F || n == 0x3000
  }

  predicate NoSpace(s: string) {
    forall i :: 0 <= i < |s| ==> !IsSpace(s[i])
  }

  /** A word as `str.split()` yields it: non-empty and free of whitespace. */
  predicate IsWord(w: string) {
    |w| > 0 && NoSpace(w)
  }

  /** The length of the run of non-whitespace characters that starts `s`. */
  function WordLength(s: string): (n: nat)
    ensures n <= |s|
    ensures forall i :: 0 <= i < n ==> !IsSpace(s[i])
    ensures n < |s| ==> IsSpace(s[n])
  {
    if s == [] || IsSpace(s[0]) then 0 else 1 + WordLength(s[1..])
  }

  /** `s.split()`: the maximal runs of non-whitespace characters, in order. */
  function SplitWords(s: string): (ws: seq<string>)
    ensures forall i :: 0 <= i < |ws| ==> IsWord(ws[i])
    decreases |s|
  {
    if s == [] then []
    else if IsSpace(s[0]) then SplitWords(s[1..])
    else
      var n := WordLength(s);
      [s[..n]] + SplitWords(s[n..])
  }

  /** The characters of `s` that are not whitespace, in order. */
  function RemoveSpaces(s: string): string {
    if s == [] then []
    else if IsSpace(s[0]) then RemoveSpaces(s[1..])
    else [s[0]] + RemoveSpaces(s[1..])
  }

  function Concat(ws: seq<string>): string {
    if ws == [] then [] else ws[0] + Concat(ws[1..])
  }

  /** The words joined back into text, each followed by one space. */
  function JoinSpaced(ws: seq<string>): string {
    if ws == [] then [] else ws[0] + " " + JoinSpaced(ws[1..])
  }

  lemma {:induction false} RemoveSpacesAppend(a: string, b: string)
    ensures RemoveSpaces(a + b) == RemoveSpaces(a) + RemoveSpaces(b)
    decreases |a|
  {
    if a == [] {
      assert a + b == b;
    } else {
      assert (a + b)[1..] == a[1..] + b;
      RemoveSpacesAppend(a[1..], b);
    }
  }

  lemma {:induction false} RemoveSpacesOfWord(w: string)
    requires NoSpace(w)
    ensures RemoveSpaces(w) == w
    decreases |w|
  {
    if w != [] {
      RemoveSpacesOfWord(w[1..]);
    }
  }

  /** Splitting loses no character other than whitespace. */
  lemma {:induction false} SplitKeepsCharacters(s: string)
    ensures Concat(SplitWords(s)) == RemoveSpaces(s)
    decreases |s|
  {
    if s == [] {
    } else if IsSpace(s[0]) {
      SplitKeepsCharacters(s[1..]);
    } else {
      var n := WordLength(s);
      assert s == s[..n] + s[n..];
      RemoveSpacesAppend(s[..n], s[n..]);
      RemoveSpacesOfWord(s[..n]);
      SplitKeepsCharacters(s[n..]);
      assert ([s[..n]] + SplitWords(s[n..]))[1..] == SplitWords(s[n..]);
    }
  }

  lemma {:induction false} WordLengthOfWord(w: string, rest: string)
    requires NoSpace(w)
    ensures WordLength(w + " " + rest) == |w|
    decreases |w|
  {
    if w != [] {
      assert (w + " " + rest)[1..] == w[1..] + " " + rest;
      WordLengthOfWord(w[1..], rest);
    }
  }

  /** Splitting text made of words separated by spaces gives the words back. */
  lemma {:induction false} SplitJoinRoundTrip(ws: seq<string>)
    requires forall i :: 0 <= i < |ws| ==> IsWord(ws[i])
    ensures SplitWords(JoinSpaced(ws)) == ws
    decreases |ws|
  {
    if ws != [] {
      var w, rest := ws[0], JoinSpaced(ws[1..]);
      var s := w + " " + rest;
      assert JoinSpaced(ws) == s;
      WordLengthOfWord(w, rest);
      assert s[..|w|] == w;
      assert s[|w|..] == " " + rest;
      assert (" " + rest)[1..] == rest;
      SplitJoinRoundTrip(ws[1..]);
    }
  }

  // ---------------------------------------------------------------------
  // The three patterns. Python's `[0-9]`, `[A-Z]` and `[a-z]` are ASCII
  // ranges; `.` is any character but a newline; `$` matches at the end of
  // the string or just before a newline that ends it. Each pattern is given
  // twice: as a scan of the string (what the lexer uses) and as a direct
  // reading of the pattern (the reference), with a lemma that they agree.

  predicate IsDigit(c: char) { '0' <= c <= '9' }
  predicate IsUpper(c: char) { 'A' <= c <= 'Z' }
  predicate IsLower(c: char) { 'a' <= c <= 'z' }

  predicate AllDigits(s: string) {
    forall i :: 0 <= i < |s| ==> IsDigit(s[i])
  }

  /**
    * Scans `[0-9]*[.,]{0,1}[0-9]*$` to the end of `s`; `seenSep` once the
    * separator is used. The scan may stop before a newline that ends `s`.
    */
  predicate NumberScan(s: string, seenSep: bool)
    decreases |s|
  {
    s == [] || s == "\n"
    || (IsDigit(s[0]) && NumberScan(s[1..], seenSep))
    || (!seenSep && (s[0] == '.' || s[0] == ',') && NumberScan(s[1..], true))
  }

  /** `re.search('^[0-9]*[.,]{0,1}[0-9]*$', s) is not None` (Code/spl.py:28). */
  predicate NumberRegex(s: string) {
    NumberScan(s, false)
  }

  predicate EndsInNewline(s: string) {
    |s| > 0 && s[|s| - 1] == '\n'
  }

  /** The number pattern read directly: digits, at most one `.` or `,`, digits. */
  predicate NumberBody(s: string) {
    AllDigits(s)
    || exists k :: 0 <= k < |s| && (s[k] == '.' || s[k] == ',') && AllDigits(s[..k]) && AllDigits(s[k + 1..])
  }

  /** The whole number pattern: the body, optionally followed by one final newline. */
  predicate NumberPattern(s: string) {
    NumberBody(s) || (EndsInNewline(s) && NumberBody(s[..|s| - 1]))
  }

  /** A separator found after the first digit is a separator of the whole. */
  lemma NumberBodyExtend(s: string)
    requires |s| > 0 && IsDigit(s[0]) && NumberBody(s[1..])
    ensures NumberBody(s)
  {
    var t := s[1..];
    if AllDigits(t) {
      forall i | 0 < i < |s|
        ensures IsDigit(s[i])
      {
        assert s[i] == t[i - 1];
      }
      assert AllDigits(s);
    } else {
      var k :| 0 <= k < |t| && (t[k] == '.' || t[k] == ',') && AllDigits(t[..k]) && AllDigits(t[k + 1..]);
      assert s[k + 1] == t[k];
      var front, back := s[..k + 1], s[k + 2..];
      forall i | 0 <= i < |front|
        ensures IsDigit(front[i])
      {
        if i > 0 {
          assert front[i] == t[..k][i - 1];
        }
      }
      forall i | 0 <= i < |back|
        ensures IsDigit(back[i])
      {
        assert back[i] == t[k + 1..][i];
      }
    }
  }

  /** A separator of a string that starts with a digit is a separator of its tail. */
  lemma NumberBodyShrink(s: string)
    requires |s| > 0 && IsDigit(s[0]) && NumberBody(s)
    ensures NumberBody(s[1..])
  {
    if !AllDigits(s) {
      var k :| 0 <= k < |s| && (s[k] == '.' || s[k] == ',') && AllDigits(s[..k]) && AllDigits(s[k + 1..]);
      assert k > 0;
      assert s[1..][..k - 1] == s[1..k];
      assert s[1..][k..] == s[k + 1..];
    }
  }

  lemma NumberBodyDigitHead(s: string)
    requires |s| > 0 && IsDigit(s[0])
    ensures NumberBody(s) <==> NumberBody(s[1..])
  {
    if NumberBody(s[1..]) {
      NumberBodyExtend(s);
    }
    if NumberBody(s) {
      NumberBodyShrink(s);
    }
  }

  lemma NumberBodySeparatorHead(s: string)
    requires |s| > 0 && (s[0] == '.' || s[0] == ',')
    ensures NumberBody(s) <==> AllDigits(s[1..])
  {
    assert !AllDigits(s);
    if AllDigits(s[1..]) {
      assert s[..0] == [];
    }
    if NumberBody(s) {
      var k :| 0 <= k < |s| && (s[k] == '.' || s[k] == ',') && AllDigits(s[..k]) && AllDigits(s[k + 1..]);
      assert k == 0;
    }
  }

  lemma NumberBodyOtherHead(s: string)
    requires |s| > 0 && !IsDigit(s[0]) && s[0] != '.' && s[0] != ','
    ensures !NumberBody(s)
  {
    assert !AllDigits(s);
    forall k | 0 < k < |s|
      ensures !AllDigits(s[..k])
    {
      assert s[..k][0] == s[0];
    }
  }

  /** Cutting the first character off a string of two or more keeps its ending. */
  lemma DropFirst(s: string)
    requires |s| >= 2
    ensures EndsInNewline(s) <==> EndsInNewline(s[1..])
    ensures s[..|s| - 1] == [s[0]] + s[1..][..|s| - 2]
  {
  }

  /** After the separator the scan accepts digits, optionally followed by one final newline. */
  lemma {:induction false} NumberScanAfterSeparator(s: string)
    ensures NumberScan(s, true) <==> AllDigits(s) || (EndsInNewline(s) && AllDigits(s[..|s| - 1]))
    decreases |s|
  {
    if s == [] || s == "\n" {
    } else {
      NumberScanAfterSeparator(s[1..]);
      if |s| >= 2 {
        DropFirst(s);
      } else {
        assert s == [s[0]];
      }
    }
  }

  /** The scan accepts exactly the strings the number pattern describes. */
  lemma {:induction false} NumberRegexIsPattern(s: string)
    ensures NumberRegex(s) <==> NumberPattern(s)
    decreases |s|
  {
    if s == [] {
    } else if s == "\n" {
      assert NumberBody(s[..0]);
    } else {
      if |s| >= 2 {
        DropFirst(s);
      } else {
        assert s == [s[0]];
      }
      if IsDigit(s[0]) {
        NumberRegexIsPattern(s[1..]);
        NumberBodyDigitHead(s);
        if |s| >= 2 {
          NumberBodyDigitHead(s[..|s| - 1]);
        }
      } else if s[0] == '.' || s[0] == ',' {
        NumberScanAfterSeparator(s[1..]);
        NumberBodySeparatorHead(s);
        if |s| >= 2 {
          NumberBodySeparatorHead(s[..|s| - 1]);
        }
      } else {
        NumberBodyOtherHead(s);
        if |s| >= 2 {
          NumberBodyOtherHead(s[..|s| - 1]);
        }
      }
    }
  }

  /**
    * Scans at most `budget` groups of "upper-case letter, space, digit" to the
    * end of `s`, or to a newline that ends it.
    */
  predicate ShortStringScan(s: string, budget: nat)
    decreases |s|
  {
    s == [] || s == "\n"
    || (budget > 0 && |s| >= 3 && IsUpper(s[0]) && s[1] == ' ' && IsDigit(s[2])
        && ShortStringScan(s[3..], budget - 1))
  }

  /** `re.search('^([A-Z][ ][0-9]){0,15}$', s) is not None` (Code/spl.py:29). */
  predicate ShortStringRegex(s: string) {
    ShortStringScan(s, 15)
  }

  /** `s` is made of at most `budget` groups of upper-case letter, space, digit. */
  predicate ShortStringBody(s: string, budget: nat) {
    |s| % 3 == 0 && |s| / 3 <= budget
    && forall j :: 0 <= j < |s| / 3 ==> IsUpper(s[3 * j]) && s[3 * j + 1] == ' ' && IsDigit(s[3 * j + 2])
  }

  /** The short-string pattern read directly: the groups, optionally followed by one final newline. */
  predicate ShortStringPattern(s: string, budget: nat) {
    ShortStringBody(s, budget) || (EndsInNewline(s) && ShortStringBody(s[..|s| - 1], budget))
  }

  /** A non-empty body is one group followed by a body with one group fewer. */
  lemma ShortStringBodyStep(s: string, budget: nat)
    requires |s| > 0
    ensures ShortStringBody(s, budget) <==>
      budget > 0 && |s| >= 3 && IsUpper(s[0]) && s[1] == ' ' && IsDigit(s[2])
      && ShortStringBody(s[3..], budget - 1)
  {
    if |s| >= 3 {
      var t := s[3..];
      assert |s| % 3 == |t| % 3 && |s| / 3 == |t| / 3 + 1;
      if ShortStringBody(s, budget) {
        assert IsUpper(s[3 * 0]) && s[3 * 0 + 1] == ' ' && IsDigit(s[3 * 0 + 2]);
        forall j | 0 <= j < |t| / 3
          ensures IsUpper(t[3 * j]) && t[3 * j + 1] == ' ' && IsDigit(t[3 * j + 2])
        {
          assert IsUpper(s[3 * (j + 1)]) && s[3 * (j + 1) + 1] == ' ' && IsDigit(s[3 * (j + 1) + 2]);
        }
      }
      if budget > 0 && IsUpper(s[0]) && s[1] == ' ' && IsDigit(s[2]) && ShortStringBody(t, budget - 1) {
        forall j | 0 <= j < |s| / 3
          ensures IsUpper(s[3 * j]) && s[3 * j + 1] == ' ' && IsDigit(s[3 * j + 2])
        {
          if j > 0 {
            assert IsUpper(t[3 * (j - 1)]) && t[3 * (j - 1) + 1] == ' ' && IsDigit(t[3 * (j - 1) + 2]);
          }
        }
      }
    } else {
      assert |s| / 3 == 0;
    }
  }

  /** The scan accepts exactly the strings the short-string pattern describes. */
  lemma {:induction false} ShortStringScanIsPattern(s: string, budget: nat)
    ensures ShortStringScan(s, budget) <==> ShortStringPattern(s, budget)
    decreases |s|
  {
    if s == [] {
    } else if s == "\n" {
      assert ShortStringBody(s[..0], budget);
    } else {
      ShortStringBodyStep(s, budget);
      if |s| >= 2 {
        ShortStringBodyStep(s[..|s| - 1], budget);
      }
      if |s| >= 3 {
        ShortStringScanIsPattern(s[3..], if budget > 0 then budget - 1 else 0);
        if |s| >= 4 {
          assert s[..|s| - 1][3..] == s[3..][..|s[3..]| - 1];
          assert EndsInNewline(s) <==> EndsInNewline(s[3..]);
        } else {
          assert !ShortStringBody(s[..|s| - 1], budget);
        }
      } else if |s| == 2 {
        assert !ShortStringBody(s[..1], budget);
      } else {
        assert !EndsInNewline(s);
      }
    }
  }

  /** The pattern as written, with its bound of fifteen groups. */
  lemma ShortStringRegexIsPattern(s: string)
    ensures ShortStringRegex(s) <==> ShortStringPattern(s, 15)
  {
    ShortStringScanIsPattern(s, 15);
  }

  /**
    * `re.search('[a-z].([a-z] | [0-9])*', s) is not None` (Code/spl.py:30),
    * unanchored, as a scan for the leftmost match. The starred group may
    * repeat zero times, so a match exists exactly when some lower-case letter
    * is followed by a character other than a newline.
    */
  predicate NameRegex(s: string)
    decreases |s|
  {
    |s| >= 2 && ((IsLower(s[0]) && s[1] != '\n') || NameRegex(s[1..]))
  }

  /** The name pattern read directly: somewhere a lower-case letter and then a non-newline. */
  predicate HasNameMatch(s: string) {
    exists i :: 0 <= i < |s| - 1 && IsLower(s[i]) && s[i + 1] != '\n'
  }

  /** The scan finds a match exactly where the pattern has one. */
  lemma {:induction false} NameRegexIsSearch(s: string)
    ensures NameRegex(s) <==> HasNameMatch(s)
    decreases |s|
  {
    if |s| >= 2 {
      NameRegexIsSearch(s[1..]);
      if HasNameMatch(s[1..]) {
        var i :| 0 <= i < |s[1..]| - 1 && IsLower(s[1..][i]) && s[1..][i + 1] != '\n';
        assert IsLower(s[i + 1]) && s[i + 2] != '\n';
      }
      if HasNameMatch(s) && !(IsLower(s[0]) && s[1] != '\n') {
        var i :| 0 <= i < |s| - 1 && IsLower(s[i]) && s[i + 1] != '\n';
        assert i > 0;
        assert IsLower(s[1..][i - 1]) && s[1..][i] != '\n';
      }
    }
  }

  /** No whitespace-free word matches the short-string pattern: every group contains a space. */
  lemma ShortStringNeverMatchesWord(w: string)
    requires IsWord(w)
    ensures !ShortStringRegex(w)
  {
    assert !IsSpace(w[0]);
    if |w| >= 3 {
      assert !IsSpace(w[1]);
    }
  }

  /** On a word, the name pattern holds exactly when a lower-case letter is not the last character. */
  lemma NameRegexOnWord(w: string)
    requires IsWord(w)
    ensures NameRegex(w) <==> exists i :: 0 <= i < |w| - 1 && IsLower(w[i])
  {
    NameRegexIsSearch(w);
    if exists i :: 0 <= i < |w| - 1 && IsLower(w[i]) {
      var i :| 0 <= i < |w| - 1 && IsLower(w[i]);
      assert !IsSpace(w[i + 1]);
    }
  }

}
