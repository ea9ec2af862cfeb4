/**
 * The JavaScript string built-ins the modelled code relies on
 * (toLowerCase, trim, includes, startsWith, split, join, replace with a
 * literal global pattern, regular-expression character classes and the
 * decimal rendering of an integer), stated over `seq<char>`.
 */
module Text {

  // ---------------------------------------------------------------------
  // Character classes
  // ---------------------------------------------------------------------

  predicate IsAsciiUpper(c: char) { 'A' <= c <= 'Z' }
  predicate IsAsciiLower(c: char) { 'a' <= c <= 'z' }
  predicate IsAsciiLetter(c: char) { IsAsciiUpper(c) || IsAsciiLower(c) }
  predicate IsDigit(c: char) { '0' <= c <= '9' }

  /** `\w` in a regular expression without the `u` flag. */
  predicate IsWordChar(c: char) { IsAsciiLetter(c) || IsDigit(c) || c == '_' }

  /** ECMAScript line terminators: what `.` in a regular expression does not match. */
  predicate IsLineTerminator(c: char) {
    c == '\n' || c == '\r' || c == '\U{2028}' || c == '\U{2029}'
  }

  /** `\s` in a regular expression, and what String.prototype.trim removes:
      ECMAScript WhiteSpace together with the line terminators. */
  predicate IsJsSpace(c: char) {
    || c == '\t' || c == '\U{000B}' || c == '\U{000C}' || c == ' '
    || c == '\U{00A0}' || c == '\U{1680}' || ('\U{2000}' <= c <= '\U{200A}')
    || c == '\U{202F}' || c == '\U{205F}' || c == '\U{3000}' || c == '\U{FEFF}'
    || IsLineTerminator(c)
  }

  // ---------------------------------------------------------------------
  // toLowerCase (ASCII letters only)
  // ---------------------------------------------------------------------

  function LowerChar(c: char): (d: char)
    ensures !IsAsciiUpper(d)
    ensures IsAsciiUpper(c) || d == c
  {
    if IsAsciiUpper(c) then (c as int + 32) as char else c
  }

  function Lower(s: string): (r: string)
    ensures |r| == |s|
    ensures forall i :: 0 <= i < |s| ==> r[i] == LowerChar(s[i])
  {
    if s == [] then [] else [LowerChar(s[0])] + Lower(s[1..])
  }

  /** A string with no upper-case ASCII letter is its own lower-case form. */
  lemma LowerOfLower(s: string)
    requires forall i :: 0 <= i < |s| ==> !IsAsciiUpper(s[i])
    ensures Lower(s) == s
  {
  }

  // ---------------------------------------------------------------------
  // includes / startsWith
  // ---------------------------------------------------------------------

  /** `s.includes(p)`: `p` occurs in `s` as a contiguous run. */
  predicate Contains(s: string, p: string)
    decreases |s|
  {
    p <= s || (s != [] && Contains(s[1..], p))
  }

  /** A test with the case-insensitive flag `i` for a lower-case ASCII pattern. */
  predicate ContainsIgnoreCase(s: string, p: string) {
    Contains(Lower(s), p)
  }

  /** `Contains` agrees with the positional reading of "occurs in". */
  lemma {:induction false} ContainsAt(s: string, p: string, k: nat)
    requires k + |p| <= |s| && s[k..k + |p|] == p
    ensures Contains(s, p)
    decreases k
  {
    if k == 0 {
      assert p <= s;
    } else {
      assert s[1..][k - 1..k - 1 + |p|] == s[k..k + |p|];
      ContainsAt(s[1..], p, k - 1);
    }
  }

  // ---------------------------------------------------------------------
  // trim
  // ---------------------------------------------------------------------

  function TrimStart(s: string): (r: string)
    ensures |r| <= |s| && r == s[|s| - |r|..]
    ensures r == [] || !IsJsSpace(r[0])
    ensures forall i :: 0 <= i < |s| - |r| ==> IsJsSpace(s[i])
  {
    if s != [] && IsJsSpace(s[0]) then TrimStart(s[1..]) else s
  }

  function TrimEnd(s: string): (r: string)
    ensures |r| <= |s| && r == s[..|r|]
    ensures r == [] || !IsJsSpace(r[|r| - 1])
    ensures forall i :: |r| <= i < |s| ==> IsJsSpace(s[i])
  {
    if s != [] && IsJsSpace(s[|s| - 1]) then TrimEnd(s[..|s| - 1]) else s
  }

  /** `s.trim()`: what remains comes from `s` and neither starts nor ends
      with white space. */
  function Trim(s: string): (r: string)
    ensures |r| <= |s|
    ensures forall i :: 0 <= i < |r| ==> r[i] in s
    ensures r == [] || (!IsJsSpace(r[0]) && !IsJsSpace(r[|r| - 1]))
  {
    var t := TrimStart(s);
    var r := TrimEnd(t);
    TrimParts(s, t, r);
    r
  }

  /** A prefix of a suffix is made of the string's characters, and keeps
      the suffix's first character. */
  lemma TrimParts(s: string, t: string, r: string)
    requires |t| <= |s| && t == s[|s| - |t|..]
    requires |r| <= |t| && r == t[..|r|]
    ensures forall i :: 0 <= i < |r| ==> r[i] in s
    ensures r != [] ==> r[0] == t[0]
  {
    forall i | 0 <= i < |r| ensures r[i] in s {
      assert r[i] == s[|s| - |t| + i];
    }
  }

  /** Trimming keeps every character a string's characters all share. */
  lemma TrimKeepsAll(s: string, keep: char -> bool)
    requires forall i :: 0 <= i < |s| ==> keep(s[i])
    ensures forall i :: 0 <= i < |Trim(s)| ==> keep(Trim(s)[i])
  {
    var r := Trim(s);
    forall i | 0 <= i < |r| ensures keep(r[i]) {
      assert r[i] in s;
    }
  }

  /** Trimming never introduces a character. */
  lemma TrimAvoids(s: string, c: char)
    requires c !in s
    ensures c !in Trim(s)
  {
  }

  /** Trimming a string that is already trimmed leaves it unchanged. */
  lemma TrimOfTrimmed(s: string)
    requires s == [] || (!IsJsSpace(s[0]) && !IsJsSpace(s[|s| - 1]))
    ensures Trim(s) == s
  {
  }

  // ---------------------------------------------------------------------
  // Character filters (`replace(/[^...]/g, '')`)
  // ---------------------------------------------------------------------

  /** The characters of `s` that satisfy `keep`, in order. */
  function Keep(s: string, keep: char -> bool): (r: string)
    ensures |r| <= |s|
    ensures forall i :: 0 <= i < |r| ==> keep(r[i])
    ensures forall i :: 0 <= i < |r| ==> r[i] in s
  {
    if s == [] then []
    else (if keep(s[0]) then [s[0]] else []) + Keep(s[1..], keep)
  }

  /** Filtering a string whose characters all pass changes nothing. */
  lemma {:induction false} KeepAll(s: string, keep: char -> bool)
    requires forall i :: 0 <= i < |s| ==> keep(s[i])
    ensures Keep(s, keep) == s
  {
    if s != [] {
      KeepAll(s[1..], keep);
    }
  }

  // ---------------------------------------------------------------------
  // replace(/literal/g, rep)
  // ---------------------------------------------------------------------

  /** Replaces every occurrence of `pat`, scanning left to right without overlap. */
  function ReplaceAll(s: string, pat: string, rep: string): (r: string)
    requires pat != []
    decreases |s|
  {
    if s == [] then []
    else if pat <= s then rep + ReplaceAll(s[|pat|..], pat, rep)
    else [s[0]] + ReplaceAll(s[1..], pat, rep)
  }

  /** A string in which the pattern does not occur is left unchanged. */
  lemma {:induction false} ReplaceAllAbsent(s: string, pat: string, rep: string)
    requires pat != [] && !Contains(s, pat)
    ensures ReplaceAll(s, pat, rep) == s
    decreases |s|
  {
    if s != [] {
      ReplaceAllAbsent(s[1..], pat, rep);
    }
  }

  /** A character found neither in the input nor in the replacement is not in the output. */
  lemma {:induction false} ReplaceAllAvoids(s: string, pat: string, rep: string, c: char)
    requires pat != [] && c !in s && c !in rep
    ensures c !in ReplaceAll(s, pat, rep)
    decreases |s|
  {
    if s != [] {
      if pat <= s {
        ReplaceAllAvoids(s[|pat|..], pat, rep, c);
      } else {
        ReplaceAllAvoids(s[1..], pat, rep, c);
      }
    }
  }

  // ---------------------------------------------------------------------
  // split / join
  // ---------------------------------------------------------------------

  function IndexOf(s: string, c: char): (i: nat)
    requires c in s
    ensures i < |s| && s[i] == c && c !in s[..i]
  {
    if s[0] == c then 0 else 1 + IndexOf(s[1..], c)
  }

  /** `s.split(sep)` for a one-character separator. */
  function Split(s: string, sep: char): (parts: seq<string>)
    ensures |parts| > 0
    ensures forall i :: 0 <= i < |parts| ==> sep !in parts[i]
    decreases |s|
  {
    if sep in s then
      var i := IndexOf(s, sep);
      [s[..i]] + Split(s[i + 1..], sep)
    else [s]
  }

  /** `parts.join(sep)` for a one-character separator. */
  function Join(parts: seq<string>, sep: char): string
  {
    if |parts| == 0 then []
    else if |parts| == 1 then parts[0]
    else parts[0] + [sep] + Join(parts[1..], sep)
  }

  /** Joining and splitting again recovers the parts, when no part holds the separator. */
  lemma {:induction false} SplitJoin(parts: seq<string>, sep: char)
    requires |parts| > 0
    requires forall i :: 0 <= i < |parts| ==> sep !in parts[i]
    ensures Split(Join(parts, sep), sep) == parts
  {
    if |parts| > 1 {
      var rest := Join(parts[1..], sep);
      var s := parts[0] + [sep] + rest;
      assert s[|parts[0]|] == sep;
      assert IndexOf(s, sep) == |parts[0]| by {
        assert s[..|parts[0]|] == parts[0];
      }
      assert s[..|parts[0]|] == parts[0];
      assert s[|parts[0]| + 1..] == rest;
      SplitJoin(parts[1..], sep);
    } else {
      assert sep !in parts[0];
    }
  }

  /** The text before the first separator: `s.split(sep)[0]`. */
  function FirstField(s: string, sep: char): (r: string)
    ensures r <= s && sep !in r
    ensures |r| < |s| ==> s[|r|] == sep
  {
    if sep in s then s[..IndexOf(s, sep)] else s
  }

  lemma FirstFieldIsSplitHead(s: string, sep: char)
    ensures Split(s, sep)[0] == FirstField(s, sep)
  {
  }

  // ---------------------------------------------------------------------
  // Regular expressions of the form /a.*b/ and /a/ over lower-cased text
  // ---------------------------------------------------------------------

  /** The part of `s` before its first line terminator: what `.*` can span. */
  function LineHead(s: string): (r: string)
    ensures r <= s
    ensures forall i :: 0 <= i < |r| ==> !IsLineTerminator(r[i])
    ensures |r| < |s| ==> IsLineTerminator(s[|r|])
  {
    if s == [] || IsLineTerminator(s[0]) then [] else [s[0]] + LineHead(s[1..])
  }

  /** `/a.*b/` tested on `t`: an occurrence of `a` followed, on the same line, by `b`. */
  predicate FollowedOnLine(t: string, a: string, b: string)
    decreases |t|
  {
    t != [] && ((a <= t && Contains(LineHead(t[|a|..]), b)) || FollowedOnLine(t[1..], a, b))
  }

  /** A match after the first character is a match. */
  lemma FollowedOnLineTail(t: string, a: string, b: string)
    requires t != [] && FollowedOnLine(t[1..], a, b)
    ensures FollowedOnLine(t, a, b)
  {
  }

  /** The witness form of `FollowedOnLine`: a match at position `k`. */
  lemma {:induction false} FollowedOnLineAt(t: string, a: string, b: string, k: nat)
    requires k + |a| <= |t| && t[k..k + |a|] == a && k < |t|
    requires Contains(LineHead(t[k + |a|..]), b)
    ensures FollowedOnLine(t, a, b)
    decreases k
  {
    if k == 0 {
      assert a <= t;
    } else {
      var u := t[1..];
      assert u[k - 1..k - 1 + |a|] == a && Contains(LineHead(u[k - 1 + |a|..]), b) by {
        assert u[k - 1..k - 1 + |a|] == t[k..k + |a|];
        assert u[k - 1 + |a|..] == t[k + |a|..];
      }
      FollowedOnLineAt(u, a, b, k - 1);
      FollowedOnLineTail(t, a, b);
    }
  }

  /** A pattern holding a character the text lacks does not occur in it. */
  lemma {:induction false} MissingCharAbsent(s: string, p: string, c: char)
    requires c in p && c !in s
    ensures !Contains(s, p)
    decreases |s|
  {
    if s != [] {
      MissingCharAbsent(s[1..], p, c);
    }
  }

  /** `a.*b` on one line needs `a` somewhere in the text. */
  lemma {:induction false} FollowedNeedsFirst(t: string, a: string, b: string)
    requires FollowedOnLine(t, a, b)
    ensures Contains(t, a)
    decreases |t|
  {
    if !(a <= t) {
      FollowedNeedsFirst(t[1..], a, b);
    }
  }

  /** Lower-casing cannot introduce a character that is neither in the
      text nor the lower-case form of a letter in it. */
  lemma LowerKeepsOut(s: string, c: char, upper: char)
    requires c !in s && upper !in s
    requires forall d :: IsAsciiUpper(d) && LowerChar(d) == c ==> d == upper
    ensures c !in Lower(s)
  {
    forall i | 0 <= i < |s|
      ensures Lower(s)[i] != c
    {
      assert s[i] != c && s[i] != upper;
    }
  }

  /** `a.*b` on one line cannot match a text lacking a character of `b`. */
  lemma {:induction false} MissingCharNotFollowed(t: string, a: string, b: string, c: char)
    requires c in b && c !in t
    ensures !FollowedOnLine(t, a, b)
    decreases |t|
  {
    if t != [] {
      if a <= t {
        var rest := LineHead(t[|a|..]);
        assert forall i :: 0 <= i < |rest| ==> rest[i] == t[|a| + i];
        MissingCharAbsent(rest, b, c);
      }
      MissingCharNotFollowed(t[1..], a, b, c);
    }
  }

  // ---------------------------------------------------------------------
  // Number.prototype.toString for integers
  // ---------------------------------------------------------------------

  function DigitChar(d: nat): (c: char)
    requires d < 10
    ensures IsDigit(c)
  {
    ('0' as int + d) as char
  }

  function DigitValue(c: char): nat
    requires IsDigit(c)
  {
    c as int - '0' as int
  }

  /** The decimal digits of `n`, most significant first, with no leading zero. */
  function NatToString(n: nat): (s: string)
    ensures |s| > 0
    ensures forall i :: 0 <= i < |s| ==> IsDigit(s[i])
    ensures |s| > 1 ==> s[0] != '0'
  {
    if n < 10 then [DigitChar(n)] else NatToString(n / 10) + [DigitChar(n % 10)]
  }

  /** `n.toString()` for an integer `n`. */
  function IntToString(n: int): string
  {
    if n < 0 then "-" + NatToString(-n) else NatToString(n)
  }

  /** Reading a string of decimal digits back as a number. */
  function ParseDigits(s: string): nat
    requires forall i :: 0 <= i < |s| ==> IsDigit(s[i])
  {
    if s == [] then 0 else 10 * ParseDigits(s[..|s| - 1]) + DigitValue(s[|s| - 1])
  }

  /** The decimal rendering of a number reads back as that number. */
  lemma {:induction false} NatToStringRoundTrip(n: nat)
    ensures ParseDigits(NatToString(n)) == n
  {
    if n >= 10 {
      var s := NatToString(n);
      assert s[..|s| - 1] == NatToString(n / 10);
      NatToStringRoundTrip(n / 10);
    }
  }
}
