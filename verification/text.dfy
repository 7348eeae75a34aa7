/**
  * The JavaScript string operations the dashboard relies on: `includes`, `startsWith`,
  * `replace` with a string pattern, `split` on one character, `trim` and `toLowerCase`.
  */
module Text {

  predicate StartsWith(s: string, prefix: string) {
    prefix <= s
  }

  /** `s.includes(pat)`: `pat` occurs somewhere in `s`. */
  predicate Contains(s: string, pat: string)
    decreases |s|
  {
    pat <= s || (|s| > 0 && Contains(s[1..], pat))
  }

  /** An occurrence at a known position makes `Contains` true. */
  lemma {:induction false} ContainsAt(s: string, pat: string, i: nat)
    requires i + |pat| <= |s| && s[i..i + |pat|] == pat
    ensures Contains(s, pat)
    decreases i
  {
    if i == 0 {
      assert s[..|pat|] == pat;
    } else {
      assert s[1..][i - 1..i - 1 + |pat|] == s[i..i + |pat|];
      ContainsAt(s[1..], pat, i - 1);
    }
  }

  /** A string contains only patterns no longer than itself. */
  lemma {:induction false} ContainsLength(s: string, pat: string)
    requires Contains(s, pat)
    ensures |pat| <= |s|
    decreases |s|
  {
    if !(pat <= s) {
      ContainsLength(s[1..], pat);
    }
  }

  /** `pat` occurs at `i` in `s`, and nowhere in `s` before that occurrence ends. */
  predicate FirstOccurrence(s: string, pat: string, i: int) {
    && |pat| > 0 && 0 <= i && i + |pat| <= |s|
    && s[i..i + |pat|] == pat
    && !Contains(s[..i + |pat| - 1], pat)
  }

  /** `s.replace(pat, '')`: the first occurrence of `pat` is removed, if there is one. */
  function RemoveFirst(s: string, pat: string): (r: string)
    requires |pat| > 0
    ensures !Contains(s, pat) ==> r == s
    ensures Contains(s, pat) ==> |r| == |s| - |pat|
    ensures Contains(s, pat) ==> exists i :: FirstOccurrence(s, pat, i) && r == s[..i] + s[i + |pat|..]
    decreases |s|
  {
    if pat <= s then
      RemoveFirstHere(s, pat);
      s[|pat|..]
    else if |s| == 0 then s
    else
      var rest := RemoveFirst(s[1..], pat);
      RemoveFirstLater(s, pat, rest);
      [s[0]] + rest
  }

  /** An occurrence at the start is the first one. */
  lemma RemoveFirstHere(s: string, pat: string)
    requires |pat| > 0 && pat <= s
    ensures FirstOccurrence(s, pat, 0) && s[|pat|..] == s[..0] + s[|pat|..]
  {
    assert s[0..|pat|] == pat;
    if Contains(s[..|pat| - 1], pat) {
      ContainsLength(s[..|pat| - 1], pat);
    }
  }

  /** The first occurrence in `s[1..]`, moved one place right, is the first in `s`. */
  lemma RemoveFirstLater(s: string, pat: string, rest: string)
    requires |pat| > 0 && |s| > 0 && !(pat <= s)
    requires Contains(s[1..], pat) ==>
      exists i :: FirstOccurrence(s[1..], pat, i) && rest == s[1..][..i] + s[1..][i + |pat|..]
    ensures Contains(s, pat) ==>
      exists i :: FirstOccurrence(s, pat, i) && [s[0]] + rest == s[..i] + s[i + |pat|..]
  {
    if Contains(s, pat) {
      var t := s[1..];
      assert Contains(t, pat);
      var i :| FirstOccurrence(t, pat, i) && rest == t[..i] + t[i + |pat|..];
      FirstOccurrenceShift(s, pat, i);
      CutShift(s, |pat|, i, rest);
      assert FirstOccurrence(s, pat, i + 1) && [s[0]] + rest == s[..i + 1] + s[i + 1 + |pat|..];
    }
  }

  /** An occurrence first in `s[1..]` is, one place right, first in `s` when `s` does not start with it. */
  lemma FirstOccurrenceShift(s: string, pat: string, i: int)
    requires |s| > 0 && !(pat <= s) && FirstOccurrence(s[1..], pat, i)
    ensures FirstOccurrence(s, pat, i + 1)
  {
    var before := s[..i + |pat|];
    assert s[i + 1..i + 1 + |pat|] == s[1..][i..i + |pat|];
    assert before[1..] == s[1..][..i + |pat| - 1];
    assert before <= s;
  }

  /** Cutting `n` characters at `i + 1` from `s` keeps `s[0]` in front of the same cut of `s[1..]`. */
  lemma CutShift(s: string, n: nat, i: nat, rest: string)
    requires |s| > 0 && i + n <= |s| - 1
    requires rest == s[1..][..i] + s[1..][i + n..]
    ensures [s[0]] + rest == s[..i + 1] + s[i + 1 + n..]
  {
    assert s[..i + 1] == [s[0]] + s[1..][..i];
    assert s[i + 1 + n..] == s[1..][i + n..];
  }

  /** `s.split(sep)` for a one-character separator. */
  function Split(s: string, sep: char): (parts: seq<string>)
    ensures |parts| >= 1
    ensures forall i :: 0 <= i < |parts| ==> sep !in parts[i]
    decreases |s|
  {
    if |s| == 0 then [""]
    else
      var rest := Split(s[1..], sep);
      if s[0] == sep then [""] + rest else [[s[0]] + rest[0]] + rest[1..]
  }

  /** `parts.join(sep)`. */
  function Join(parts: seq<string>, sep: char): string
    requires |parts| >= 1
    decreases |parts|
  {
    if |parts| == 1 then parts[0] else parts[0] + [sep] + Join(parts[1..], sep)
  }

  /** Splitting loses nothing: joining the parts back gives the original string. */
  lemma {:induction false} JoinSplit(s: string, sep: char)
    ensures Join(Split(s, sep), sep) == s
    decreases |s|
  {
    if |s| > 0 {
      var rest := Split(s[1..], sep);
      JoinSplit(s[1..], sep);
      if s[0] == sep {
        assert Split(s, sep)[1..] == rest;
      } else if |rest| == 1 {
        assert Split(s, sep) == [[s[0]] + rest[0]];
      } else {
        var parts := Split(s, sep);
        assert parts[1..] == rest[1..];
        assert Join(rest, sep) == rest[0] + [sep] + Join(rest[1..], sep);
      }
    }
  }

  /** A string without the separator is one part. */
  lemma {:induction false} SplitNoSeparator(s: string, sep: char)
    requires sep !in s
    ensures Split(s, sep) == [s]
    decreases |s|
  {
    if |s| > 0 {
      assert s[0] != sep && sep !in s[1..];
      SplitNoSeparator(s[1..], sep);
      assert [s[0]] + s[1..] == s;
    }
  }

  /** Splitting `a + sep + b`, where `a` has no separator, starts with the part `a`. */
  lemma {:induction false} SplitAtFirstSeparator(a: string, sep: char, b: string)
    requires sep !in a
    ensures Split(a + [sep] + b, sep) == [a] + Split(b, sep)
    decreases |a|
  {
    if |a| > 0 {
      assert (a + [sep] + b)[1..] == a[1..] + [sep] + b;
      assert sep !in a[1..];
      SplitAtFirstSeparator(a[1..], sep, b);
      assert [a[0]] + a[1..] == a;
    } else {
      assert a + [sep] + b == [sep] + b;
    }
  }

  /** Joining parts that contain no separator and splitting again gives the parts back. */
  lemma {:induction false} SplitJoin(parts: seq<string>, sep: char)
    requires |parts| >= 1
    requires forall i :: 0 <= i < |parts| ==> sep !in parts[i]
    ensures Split(Join(parts, sep), sep) == parts
    decreases |parts|
  {
    if |parts| == 1 {
      SplitNoSeparator(parts[0], sep);
    } else {
      SplitJoin(parts[1..], sep);
      SplitAtFirstSeparator(parts[0], sep, Join(parts[1..], sep));
      assert [parts[0]] + parts[1..] == parts;
    }
  }

  /** The last part of `s.split(sep)`: everything after the last separator. */
  function LastSegment(s: string, sep: char): (r: string)
    ensures sep !in r
    ensures |r| <= |s| && r == s[|s| - |r|..]
    ensures |r| < |s| ==> s[|s| - |r| - 1] == sep
  {
    var parts := Split(s, sep);
    LastPartIsTail(s, sep);
    parts[|parts| - 1]
  }

  lemma {:induction false} LastPartIsTail(s: string, sep: char)
    ensures var parts := Split(s, sep); var r := parts[|parts| - 1];
      && |r| <= |s| && r == s[|s| - |r|..] && (|r| < |s| ==> s[|s| - |r| - 1] == sep)
      && (|parts| == 1 ==> r == s) && (|parts| > 1 ==> |r| < |s|)
    decreases |s|
  {
    if |s| > 0 {
      LastPartIsTail(s[1..], sep);
      var rest := Split(s[1..], sep);
      var parts := Split(s, sep);
      var r' := rest[|rest| - 1];
      assert s[1..][|s[1..]| - |r'|..] == s[|s| - |r'|..];
      if s[0] == sep {
        assert parts == [""] + rest;
        assert parts[|parts| - 1] == r';
      } else if |rest| > 1 {
        assert parts == [[s[0]] + rest[0]] + rest[1..];
        assert parts[|parts| - 1] == r';
      } else {
        assert parts == [[s[0]] + rest[0]];
        assert rest[0] == s[1..];
        assert [s[0]] + s[1..] == s;
      }
    }
  }

  /** The characters JavaScript's `trim` removes (white space and line terminators). */
  predicate IsSpace(c: char) {
    c == ' ' || c == '\t' || c == '\n' || c == '\r' || c == '\U{000B}' || c == '\U{000C}'
    || c == '\U{00A0}' || c == '\U{FEFF}' || c == '\U{1680}' || ('\U{2000}' <= c <= '\U{200A}')
    || c == '\U{2028}' || c == '\U{2029}' || c == '\U{202F}' || c == '\U{205F}' || c == '\U{3000}'
  }

  function TrimStart(s: string): (r: string)
    ensures |r| <= |s| && r == s[|s| - |r|..]
    ensures forall i :: 0 <= i < |s| - |r| ==> IsSpace(s[i])
    ensures |r| > 0 ==> !IsSpace(r[0])
    decreases |s|
  {
    if |s| > 0 && IsSpace(s[0]) then TrimStart(s[1..]) else s
  }

  function TrimEnd(s: string): (r: string)
    ensures |r| <= |s| && r == s[..|r|]
    ensures forall i :: |r| <= i < |s| ==> IsSpace(s[i])
    ensures |r| > 0 ==> !IsSpace(r[|r| - 1])
    decreases |s|
  {
    if |s| > 0 && IsSpace(s[|s| - 1]) then TrimEnd(s[..|s| - 1]) else s
  }

  /**
    * `s.trim()`: the part of `s` left once the white space at both ends is cut off. What is
    * kept is one stretch of `s` that starts after the leading white space; everything cut off
    * is white space, and the kept part starts and ends with something else.
    */
  function Trim(s: string): (r: string)
    ensures var a := |s| - |TrimStart(s)|;
      && a + |r| <= |s| && (forall i :: 0 <= i < |r| ==> r[i] == s[a + i])
      && (forall i :: 0 <= i < a ==> IsSpace(s[i]))
      && (forall i :: a + |r| <= i < |s| ==> IsSpace(s[i]))
    ensures |r| > 0 ==> !IsSpace(r[0]) && !IsSpace(r[|r| - 1])
  {
    var t := TrimStart(s);
    CutBothEnds(s, t, TrimEnd(t), IsSpace);
    TrimEnd(t)
  }

  /**
    * Cutting a run of `cut` characters off the front of `s` (leaving `t`) and then off the back
    * of `t` (leaving `r`) leaves one stretch of `s`, with everything cut satisfying `cut`.
    */
  lemma CutBothEnds<T>(s: seq<T>, t: seq<T>, r: seq<T>, cut: T -> bool)
    requires |t| <= |s| && t == s[|s| - |t|..] && forall i :: 0 <= i < |s| - |t| ==> cut(s[i])
    requires |t| > 0 ==> !cut(t[0])
    requires |r| <= |t| && r == t[..|r|] && forall i :: |r| <= i < |t| ==> cut(t[i])
    requires |r| > 0 ==> !cut(r[|r| - 1])
    ensures var a := |s| - |t|;
      && a + |r| <= |s| && (forall i :: 0 <= i < |r| ==> r[i] == s[a + i])
      && (forall i :: a + |r| <= i < |s| ==> cut(s[i]))
    ensures |r| > 0 ==> !cut(r[0])
  {
    var a := |s| - |t|;
    forall i | a + |r| <= i < |s|
      ensures cut(s[i])
    {
      assert s[i] == t[i - a];
    }
    if |r| > 0 {
      assert r[0] == t[0];
    }
  }

  /** Trimming white space off the front of text that has none at either end gives that text. */
  lemma TrimPadded(spaces: string, t: string)
    requires forall i :: 0 <= i < |spaces| ==> IsSpace(spaces[i])
    requires |t| > 0 && !IsSpace(t[0]) && !IsSpace(t[|t| - 1])
    ensures Trim(spaces + t) == t
  {
    TrimStartAfterSpaces(spaces, t);
    var e := TrimEnd(t);
    var last := t[|t| - 1];
    assert |e| < |t| ==> IsSpace(last);
  }

  /** White space in front of a non-space character is exactly what `TrimStart` drops. */
  lemma {:induction false} TrimStartAfterSpaces(spaces: string, t: string)
    requires forall i :: 0 <= i < |spaces| ==> IsSpace(spaces[i])
    requires |t| > 0 && !IsSpace(t[0])
    ensures TrimStart(spaces + t) == t
    decreases |spaces|
  {
    if |spaces| > 0 {
      assert (spaces + t)[1..] == spaces[1..] + t;
      TrimStartAfterSpaces(spaces[1..], t);
    } else {
      assert spaces + t == t;
    }
  }

  /**
    * `s.length` in JavaScript: the number of UTF-16 code units, where a character beyond
    * U+FFFF takes two.
    */
  function Utf16Length(s: string): (n: nat)
    ensures |s| <= n <= 2 * |s|
    ensures (forall i :: 0 <= i < |s| ==> s[i] < '\U{10000}') ==> n == |s|
    decreases |s|
  {
    if s == [] then 0
    else (if s[0] < '\U{10000}' then 1 else 2) + Utf16Length(s[1..])
  }

  function LowerChar(c: char): char {
    if 'A' <= c <= 'Z' then (c as int + 32) as char else c
  }

  /** `s.toLowerCase()` on ASCII letters. */
  function ToLower(s: string): (r: string)
    ensures |r| == |s| && forall i :: 0 <= i < |s| ==> r[i] == LowerChar(s[i])
  {
    seq(|s|, i requires 0 <= i < |s| => LowerChar(s[i]))
  }
}
