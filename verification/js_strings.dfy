/** The parts of JavaScript's String.prototype that the services rely on:
    `trim`, `indexOf`, `includes`, `split(',')[1]` and `replace` with a string
    pattern, including the `$` patterns of the replacement string
    (GetSubstitution, section 22.1.3.19.1 of ECMAScript 2024). */
module JsStrings {
  import opened Base

  /** The WhiteSpace and LineTerminator code points of ECMAScript
      (sections 12.2 and 12.3), the characters `trim` removes. */
  predicate IsWhitespace(c: char) {
    c == '\t' || c == '\n' || c == '\U{0B}' || c == '\U{0C}' || c == '\r' || c == ' '
    || c == '\U{A0}' || c == '\U{1680}' || ('\U{2000}' <= c <= '\U{200A}')
    || c == '\U{2028}' || c == '\U{2029}' || c == '\U{202F}' || c == '\U{205F}'
    || c == '\U{3000}' || c == '\U{FEFF}'
  }

  /** Every character of s is whitespace (the empty string included). */
  predicate IsBlank(s: string) {
    forall i | 0 <= i < |s| :: IsWhitespace(s[i])
  }

  /** `s.trimStart()`: drops the leading whitespace and nothing else. */
  function TrimStart(s: string): (r: string)
    ensures |r| <= |s| && r == s[|s| - |r|..]
    ensures IsBlank(s[..|s| - |r|])
    ensures r == [] || !IsWhitespace(r[0])
  {
    if s != [] && IsWhitespace(s[0]) then
      var r := TrimStart(s[1..]);
      assert s[..|s| - |r|] == [s[0]] + s[1..][..|s[1..]| - |r|];
      r
    else
      s
  }

  /** `s.trimEnd()`: drops the trailing whitespace and nothing else. */
  function TrimEnd(s: string): (r: string)
    ensures |r| <= |s| && r == s[..|r|]
    ensures IsBlank(s[|r|..])
    ensures r == [] || !IsWhitespace(r[|r| - 1])
  {
    if s != [] && IsWhitespace(s[|s| - 1]) then
      var r := TrimEnd(s[..|s| - 1]);
      assert s[|r|..] == s[..|s| - 1][|r|..] + [s[|s| - 1]];
      r
    else
      s
  }

  /** `s.trim()`: the part of s between its leading and trailing whitespace. */
  function Trim(s: string): (r: string)
    ensures |r| <= |s|
    ensures r == [] || (!IsWhitespace(r[0]) && !IsWhitespace(r[|r| - 1]))
  {
    TrimEnd(TrimStart(s))
  }

  /** `s.trim().length > 0` exactly when s holds a character that is not whitespace. */
  lemma {:induction false} TrimEmptyIffBlank(s: string)
    ensures Trim(s) == [] <==> IsBlank(s)
  {
    var t := TrimStart(s);
    var k := |s| - |t|;
    if Trim(s) == [] {
      assert s[..k] == s;
    } else {
      assert s[k] == t[0];
    }
  }

  /** Trimming a trimmed string changes nothing. */
  lemma {:induction false} TrimIdempotent(s: string)
    ensures Trim(Trim(s)) == Trim(s)
  {
    var r := Trim(s);
    assert TrimStart(r) == r;
    assert TrimEnd(r) == r;
  }

  /** Whitespace padding around a core that neither starts nor ends with
      whitespace is exactly what `trim` removes. */
  lemma {:induction false} TrimPadded(pre: string, core: string, post: string)
    requires IsBlank(pre) && IsBlank(post)
    requires core == [] || (!IsWhitespace(core[0]) && !IsWhitespace(core[|core| - 1]))
    ensures Trim(pre + core + post) == core
  {
    StartTrimsPrefix(pre, core + post);
    assert pre + core + post == pre + (core + post);
    if core == [] {
      assert core + post == post;
      EndTrimsSuffix([], post);
      assert [] + post == post;
    } else {
      EndTrimsSuffix(core, post);
    }
  }

  lemma {:induction false} StartTrimsPrefix(pre: string, rest: string)
    requires IsBlank(pre)
    requires rest == [] || !IsWhitespace(rest[0]) || IsBlank(rest)
    ensures rest != [] && !IsWhitespace(rest[0]) ==> TrimStart(pre + rest) == rest
    ensures IsBlank(rest) ==> TrimStart(pre + rest) == []
  {
    if pre == [] {
      assert pre + rest == rest;
    } else {
      assert (pre + rest)[1..] == pre[1..] + rest;
      StartTrimsPrefix(pre[1..], rest);
    }
  }

  lemma {:induction false} EndTrimsSuffix(core: string, post: string)
    requires IsBlank(post)
    requires core == [] || !IsWhitespace(core[|core| - 1])
    ensures TrimEnd(core + post) == core
  {
    if post == [] {
      assert core + post == core;
    } else {
      var s := core + post;
      assert s[..|s| - 1] == core + post[..|post| - 1];
      EndTrimsSuffix(core, post[..|post| - 1]);
    }
  }

  /** `pat` occurs in s starting at index i. */
  predicate IsAt(s: string, pat: string, i: nat) {
    i + |pat| <= |s| && s[i..i + |pat|] == pat
  }

  /** `s.indexOf(pat, from)`: the first occurrence at or after `from`. */
  function IndexFrom(s: string, pat: string, from: nat): (r: Option<nat>)
    decreases |s| - from
    ensures r.Some? ==> from <= r.value && IsAt(s, pat, r.value)
    ensures r.Some? ==> forall j: nat | from <= j < r.value :: !IsAt(s, pat, j)
    ensures r.None? ==> forall j: nat | from <= j :: !IsAt(s, pat, j)
  {
    if from + |pat| > |s| then None
    else if s[from..from + |pat|] == pat then Some(from)
    else IndexFrom(s, pat, from + 1)
  }

  /** `s.indexOf(pat)`: the first occurrence of pat in s, if any. */
  function IndexOf(s: string, pat: string): (r: Option<nat>)
    ensures r.Some? ==> IsAt(s, pat, r.value) && forall j: nat | j < r.value :: !IsAt(s, pat, j)
    ensures r.None? <==> forall j: nat :: !IsAt(s, pat, j)
  {
    IndexFrom(s, pat, 0)
  }

  /** `s.includes(pat)`. */
  function Includes(s: string, pat: string): (b: bool)
    ensures b <==> exists i: nat :: IsAt(s, pat, i)
  {
    IndexOf(s, pat).Some?
  }

  /** An occurrence of the one-character string [c] is an occurrence of c. */
  lemma IsAtChar(s: string, c: char, i: nat)
    ensures IsAt(s, [c], i) <==> i < |s| && s[i] == c
  {
    if i < |s| { assert s[i..i + 1] == [s[i]]; }
  }

  /** f starts right after the first comma of s and runs up to the next
      comma or the end of s. */
  predicate FollowsFirstComma(s: string, f: string)
    requires IndexOf(s, ",").Some?
  {
    var i := IndexOf(s, ",").value;
    i + 1 + |f| <= |s| && s[i + 1..i + 1 + |f|] == f && (i + 1 + |f| == |s| || s[i + 1 + |f|] == ',')
  }

  /** `s.split(',')[1]`: the text between the first and the second comma
      (or the end of s); undefined when s holds no comma. */
  function SecondCommaField(s: string): (r: Option<string>)
    ensures r.None? <==> ',' !in s
    ensures r.Some? ==> ',' !in r.value
    ensures r.Some? ==> IndexOf(s, ",").Some? && FollowsFirstComma(s, r.value)
  {
    match IndexOf(s, ",")
    case None =>
      assert forall i | 0 <= i < |s| :: s[i] != ',' by {
        forall i | 0 <= i < |s| ensures s[i] != ',' { IsAtChar(s, ',', i); }
      }
      None
    case Some(i) =>
      IsAtChar(s, ',', i);
      var rest := s[i + 1..];
      match IndexOf(rest, ",")
      case None =>
        assert forall k | 0 <= k < |rest| :: rest[k] != ',' by {
          forall k | 0 <= k < |rest| ensures rest[k] != ',' { IsAtChar(rest, ',', k); }
        }
        Some(rest)
      case Some(j) =>
        assert forall k | 0 <= k < j :: rest[k] != ',' by {
          forall k | 0 <= k < j ensures rest[k] != ',' { IsAtChar(rest, ',', k); }
        }
        Some(rest[..j])
  }

  /** The replacement text of `str.replace(matched, replacement)` once
      `matched` was found at `position`: `$$` gives `$`, `$&` the match,
      `` $` `` the text before it, `$'` the text after it; with a string
      pattern there are no captures, so any other `$` stands for itself. */
  function GetSubstitution(matched: string, str: string, position: nat, replacement: string): (r: string)
    requires position + |matched| <= |str|
    decreases |replacement|
    ensures '$' !in replacement ==> r == replacement
  {
    if replacement == [] then []
    else if replacement[0] == '$' && |replacement| >= 2 then
      var c := replacement[1];
      if c == '$' then "$" + GetSubstitution(matched, str, position, replacement[2..])
      else if c == '&' then matched + GetSubstitution(matched, str, position, replacement[2..])
      else if c == '`' then str[..position] + GetSubstitution(matched, str, position, replacement[2..])
      else if c == '\'' then str[position + |matched|..] + GetSubstitution(matched, str, position, replacement[2..])
      else "$" + GetSubstitution(matched, str, position, replacement[1..])
    else
      [replacement[0]] + GetSubstitution(matched, str, position, replacement[1..])
  }

  /** `s.replace(pat, rep)` with a string pattern: only the first occurrence
      is replaced. */
  function ReplaceFirst(s: string, pat: string, rep: string): (r: string)
    ensures IndexOf(s, pat).None? ==> r == s
    ensures IndexOf(s, pat).Some? && '$' !in rep ==>
      r == s[..IndexOf(s, pat).value] + rep + s[IndexOf(s, pat).value + |pat|..]
  {
    match IndexOf(s, pat)
    case None => s
    case Some(i) => s[..i] + GetSubstitution(pat, s, i, rep) + s[i + |pat|..]
  }

  /** `$&` in a replacement re-inserts the matched text: replacing the first
      occurrence of pat by `$&` gives back s, where a literal replacement
      would have put the two characters `$&` there. */
  lemma DollarAmpersandInsertsMatch(s: string, pat: string)
    requires IndexOf(s, pat).Some?
    ensures ReplaceFirst(s, pat, "$&") == s
  {
    var i := IndexOf(s, pat).value;
    assert GetSubstitution(pat, s, i, "$&") == pat by { assert "$&"[2..] == []; }
    assert s[..i] + s[i..i + |pat|] + s[i + |pat|..] == s;
  }
}
