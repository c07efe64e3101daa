/** Removal of ANSI escape sequences, as `re.sub` does it with the pattern
  *   ESC (?: [@-Z\\-_] | \[ [0-?]* [ -/]* [@-~] )
  * The first alternative is the two-character form ESC Fe (section 5.3 of
  * ECMA-48), the second a control sequence ESC [ P* I* F (section 5.4 of
  * ECMA-48). Both copies of the stripper in the package compile this same
  * pattern, so one definition models both.
  */
module Ansi {

  const ESC: char := '\U{1B}'

  /** Second character of the form ESC Fe: 0x40-0x5F except '['. */
  predicate IsFe(c: char) { '@' <= c <= '_' && c != '[' }

  /** Parameter byte of a control sequence: 0x30-0x3F. */
  predicate IsParam(c: char) { '0' <= c <= '?' }

  /** Intermediate byte of a control sequence: 0x20-0x2F. */
  predicate IsIntermediate(c: char) { ' ' <= c <= '/' }

  /** Final byte of a control sequence: 0x40-0x7E. */
  predicate IsFinal(c: char) { '@' <= c <= '~' }

  /** A character that no escape sequence can contain after its ESC:
    * anything outside 0x20-0x7E (ESC, newline and the other controls, DEL,
    * and every non-ASCII character). */
  predicate IsBreak(c: char) { !(' ' <= c <= '~') }

  // ---------------------------------------------------------------------
  // The language of the pattern, as a right-linear grammar
  // ---------------------------------------------------------------------

  /** u is in  [ -/]* [@-~] */
  predicate InterTail(u: string)
    decreases |u|
  {
    |u| >= 1 &&
    ((|u| == 1 && IsFinal(u[0])) || (IsIntermediate(u[0]) && InterTail(u[1..])))
  }

  /** u is in  [0-?]* [ -/]* [@-~] */
  predicate ParamTail(u: string)
    decreases |u|
  {
    InterTail(u) || (|u| >= 1 && IsParam(u[0]) && ParamTail(u[1..]))
  }

  /** t, as a whole, matches the pattern. */
  predicate IsEscapeSequence(t: string)
  {
    |t| >= 2 && t[0] == ESC &&
    ((|t| == 2 && IsFe(t[1])) || (t[1] == '[' && ParamTail(t[2..])))
  }

  // ---------------------------------------------------------------------
  // The scanner
  // ---------------------------------------------------------------------

  /** The end of the longest run of characters satisfying p that starts at j. */
  function Span(s: string, j: nat, p: char -> bool): (k: nat)
    requires j <= |s|
    ensures j <= k <= |s|
    ensures forall m :: j <= m < k ==> p(s[m])
    ensures k == |s| || !p(s[k])
    decreases |s| - j
  {
    if j < |s| && p(s[j]) then Span(s, j + 1, p) else j
  }

  /** Length of the match of the pattern at the start of s, 0 when there is
    * none. Alternatives are tried in the pattern's order; the character
    * classes are disjoint, so greedy runs never need to give anything back. */
  function MatchLength(s: string): (n: nat)
    ensures n <= |s|
    ensures n != 0 ==> n >= 2 && s[0] == ESC
  {
    if |s| >= 2 && s[0] == ESC then
      if IsFe(s[1]) then 2
      else if s[1] == '[' then
        var q := Span(s, Span(s, 2, IsParam), IsIntermediate);
        if q < |s| && IsFinal(s[q]) then q + 1 else 0
      else 0
    else 0
  }

  /** One step of the substitution: a character kept, or a match removed. */
  datatype Token = Kept(c: char) | Removed(run: string)

  function TokenText(t: Token): string
  {
    match t
    case Kept(c) => [c]
    case Removed(run) => run
  }

  /** The text a token sequence was read from. */
  function Flatten(ts: seq<Token>): string
  {
    if ts == [] then [] else TokenText(ts[0]) + Flatten(ts[1..])
  }

  /** The text that survives the substitution. */
  function KeptText(ts: seq<Token>): (r: string)
    ensures |r| <= |Flatten(ts)|
  {
    if ts == [] then []
    else KeptPart(ts[0]) + KeptText(ts[1..])
  }

  function KeptPart(t: Token): string
  {
    if t.Kept? then [t.c] else []
  }

  /** No prefix of s, the empty one included, is a match of the pattern. */
  predicate NoMatchAt(s: string)
  {
    forall j :: 0 <= j <= |s| ==> !IsEscapeSequence(s[..j])
  }

  /** Left-to-right scan of `re.sub`: at each position either the pattern
    * matches and the whole match is removed, or one character is kept,
    * and a character is kept only where no match starts. */
  function Scan(s: string): (ts: seq<Token>)
    ensures Flatten(ts) == s
    ensures forall k :: 0 <= k < |ts| && ts[k].Removed? ==> IsEscapeSequence(ts[k].run)
    ensures forall k :: 0 <= k < |ts| && ts[k].Kept? ==> NoMatchAt(Flatten(ts[k..]))
    decreases |s|
  {
    if s == [] then []
    else
      var n := MatchLength(s);
      var m := if n == 0 then 1 else n;
      var head := if n == 0 then Kept(s[0]) else Removed(s[..n]);
      var rest := Scan(s[m..]);
      MatchLengthSound(s);
      assert TokenText(head) + s[m..] == s;
      FlattenCons(head, rest);
      var ts := [head] + rest;
      assert forall k :: 1 <= k < |ts| ==> ts[k..] == rest[k - 1..];
      assert ts[0..] == ts;
      if n == 0 then NoMatchAtStart(s); ts else ts
  }

  lemma FlattenCons(t: Token, ts: seq<Token>)
    ensures Flatten([t] + ts) == TokenText(t) + Flatten(ts)
  {
    assert ([t] + ts)[1..] == ts;
  }

  /** `_strip_ansi_escape(txt)` / `strip_ansi_escape(txt)`: the text with
    * every match of the scan removed. */
  function Strip(s: string): (r: string)
    ensures |r| <= |s|
    decreases |s|
  {
    if s == [] then []
    else
      var n := MatchLength(s);
      if n == 0 then [s[0]] + Strip(s[1..]) else Strip(s[n..])
  }

  /** The stripped text is exactly what the scan keeps. */
  lemma {:induction false} StripIsKeptText(s: string)
    ensures Strip(s) == KeptText(Scan(s))
    decreases |s|
  {
    if s != [] {
      var n := MatchLength(s);
      var m := if n == 0 then 1 else n;
      var head := if n == 0 then Kept(s[0]) else Removed(s[..n]);
      StripIsKeptText(s[m..]);
      assert Scan(s) == [head] + Scan(s[m..]);
      assert ([head] + Scan(s[m..]))[1..] == Scan(s[m..]);
    }
  }

  // ---------------------------------------------------------------------
  // The scanner recognises exactly the pattern's language
  // ---------------------------------------------------------------------

  lemma {:induction false} InterTailFound(s: string, j: nat)
    requires j <= |s|
    requires Span(s, j, IsIntermediate) < |s| && IsFinal(s[Span(s, j, IsIntermediate)])
    ensures InterTail(s[j..Span(s, j, IsIntermediate) + 1])
    decreases |s| - j
  {
    var q := Span(s, j, IsIntermediate);
    if q != j {
      InterTailFound(s, j + 1);
      assert s[j..q + 1][1..] == s[j + 1..q + 1];
    }
  }

  lemma {:induction false} ParamTailFound(s: string, j: nat)
    requires j <= |s|
    requires var q := Span(s, Span(s, j, IsParam), IsIntermediate); q < |s| && IsFinal(s[q])
    ensures ParamTail(s[j..Span(s, Span(s, j, IsParam), IsIntermediate) + 1])
    decreases |s| - j
  {
    if Span(s, j, IsParam) == j {
      InterTailFound(s, j);
    } else {
      ParamTailFound(s, j + 1);
      var q := Span(s, Span(s, j, IsParam), IsIntermediate);
      assert s[j..q + 1][1..] == s[j + 1..q + 1];
    }
  }

  lemma {:induction false} InterTailAt(s: string, j: nat, k: nat)
    requires j < k <= |s| && InterTail(s[j..k])
    ensures k == Span(s, j, IsIntermediate) + 1 && IsFinal(s[k - 1])
    decreases k - j
  {
    var u := s[j..k];
    if !(|u| == 1 && IsFinal(u[0])) {
      assert u[1..] == s[j + 1..k];
      InterTailAt(s, j + 1, k);
    }
  }

  lemma {:induction false} ParamTailAt(s: string, j: nat, k: nat)
    requires j < k <= |s| && ParamTail(s[j..k])
    ensures k == Span(s, Span(s, j, IsParam), IsIntermediate) + 1 && IsFinal(s[k - 1])
    decreases k - j
  {
    var u := s[j..k];
    if InterTail(u) {
      InterTailAt(s, j, k);
    } else {
      assert u[1..] == s[j + 1..k];
      ParamTailAt(s, j + 1, k);
    }
  }

  /** A non-zero match length delimits a match of the pattern. */
  lemma MatchLengthSound(s: string)
    ensures MatchLength(s) != 0 ==> IsEscapeSequence(s[..MatchLength(s)])
  {
    var n := MatchLength(s);
    if n != 0 && !IsFe(s[1]) {
      ParamTailFound(s, 2);
      assert s[..n][2..] == s[2..n];
    }
  }

  /** The pattern's language is prefix-free: a match at the start of s has
    * exactly the length the scanner finds, so no other way of matching
    * (another alternative, a shorter run) exists. */
  lemma MatchLengthUnique(s: string, k: nat)
    requires k <= |s| && IsEscapeSequence(s[..k])
    ensures MatchLength(s) == k
  {
    var t := s[..k];
    if !(|t| == 2 && IsFe(t[1])) {
      assert t[2..] == s[2..k];
      ParamTailAt(s, 2, k);
    }
  }

  /** Where the scanner finds no match, no prefix of any length matches. */
  lemma NoMatchAtStart(s: string)
    requires MatchLength(s) == 0
    ensures NoMatchAt(s)
  {
    forall j | 0 <= j <= |s| {
      NoMatchMeansNoPrefix(s, j);
    }
  }

  /** No match at all starts where the scanner finds none. */
  lemma NoMatchMeansNoPrefix(s: string, k: nat)
    requires MatchLength(s) == 0 && k <= |s|
    ensures !IsEscapeSequence(s[..k])
  {
    if IsEscapeSequence(s[..k]) {
      MatchLengthUnique(s, k);
    }
  }

  // ---------------------------------------------------------------------
  // Properties of the stripper
  // ---------------------------------------------------------------------

  /** a is a subsequence of b. */
  predicate IsSubsequence(a: string, b: string)
    decreases |b|
  {
    a == [] ||
    (|b| > 0 && ((a[0] == b[0] && IsSubsequence(a[1..], b[1..])) || IsSubsequence(a, b[1..])))
  }

  lemma {:induction false} SubsequenceSkip(a: string, x: string, b: string)
    requires IsSubsequence(a, b)
    ensures IsSubsequence(a, x + b)
    decreases |x|
  {
    if x == [] {
      assert x + b == b;
    } else {
      SubsequenceSkip(a, x[1..], b);
      assert (x + b)[1..] == x[1..] + b;
      assert IsSubsequence(a, (x + b)[1..]);
    }
  }

  lemma {:induction false} KeptTextSubsequence(ts: seq<Token>)
    ensures IsSubsequence(KeptText(ts), Flatten(ts))
  {
    if ts != [] {
      KeptTextSubsequence(ts[1..]);
      var rest := Flatten(ts[1..]);
      match ts[0]
      case Kept(c) =>
        assert ([c] + rest)[1..] == rest;
        assert ([c] + KeptText(ts[1..]))[1..] == KeptText(ts[1..]);
      case Removed(run) =>
        assert KeptText(ts) == KeptText(ts[1..]);
        assert Flatten(ts) == run + rest;
        SubsequenceSkip(KeptText(ts[1..]), run, rest);
    }
  }

  /** The stripper only deletes: its output is a subsequence of its input. */
  lemma StripSubsequence(s: string)
    ensures IsSubsequence(Strip(s), s)
  {
    KeptTextSubsequence(Scan(s));
    StripIsKeptText(s);
  }

  /** Every removed run is one whole match: one ESC at its head, none
    * after, and a final byte 0x40-0x7E at its end. */
  lemma {:induction false} EscapeSequenceShape(t: string)
    requires IsEscapeSequence(t)
    ensures t[0] == ESC && forall i :: 1 <= i < |t| ==> t[i] != ESC
    ensures IsFinal(t[|t| - 1])
  {
    if t[1] == '[' {
      ParamTailNoEsc(t[2..]);
      assert forall i :: 2 <= i < |t| ==> t[i] == t[2..][i - 2];
      assert t[2..|t|] == t[2..];
      ParamTailAt(t, 2, |t|);
    }
  }

  lemma {:induction false} InterTailNoEsc(u: string)
    requires InterTail(u)
    ensures forall i :: 0 <= i < |u| ==> ' ' <= u[i] <= '~'
    decreases |u|
  {
    if |u| > 1 {
      InterTailNoEsc(u[1..]);
      assert forall i :: 1 <= i < |u| ==> u[i] == u[1..][i - 1];
    }
  }

  lemma {:induction false} ParamTailNoEsc(u: string)
    requires ParamTail(u)
    ensures forall i :: 0 <= i < |u| ==> ' ' <= u[i] <= '~'
    decreases |u|
  {
    if InterTail(u) {
      InterTailNoEsc(u);
    } else {
      ParamTailNoEsc(u[1..]);
      assert forall i :: 1 <= i < |u| ==> u[i] == u[1..][i - 1];
    }
  }

  /** Text without ESC passes through unchanged. */
  lemma {:induction false} StripNoEscape(s: string)
    requires forall i :: 0 <= i < |s| ==> s[i] != ESC
    ensures Strip(s) == s
    decreases |s|
  {
    if s != [] {
      StripNoEscape(s[1..]);
    }
  }

  /** A complete escape sequence at the front is removed whatever follows. */
  lemma StripAfterEscape(t: string, x: string)
    requires IsEscapeSequence(t)
    ensures Strip(t + x) == Strip(x)
  {
    assert (t + x)[..|t|] == t;
    MatchLengthUnique(t + x, |t|);
    assert (t + x)[|t|..] == x;
  }

  /** A complete escape sequence strips to nothing. */
  lemma StripEscapeSequence(t: string)
    requires IsEscapeSequence(t)
    ensures Strip(t) == []
  {
    StripAfterEscape(t, []);
    assert t + [] == t;
  }

  lemma {:induction false} SpanAppend(a: string, b: string, j: nat, p: char -> bool)
    requires j <= |a|
    requires b == [] || !p(b[0])
    ensures Span(a + b, j, p) == Span(a, j, p)
    decreases |a| - j
  {
    if j < |a| && p(a[j]) {
      SpanAppend(a, b, j + 1, p);
    }
  }

  lemma MatchLengthAppend(a: string, b: string)
    requires a != []
    requires b == [] || IsBreak(b[0])
    ensures MatchLength(a + b) == MatchLength(a)
  {
    if |a| >= 2 && a[0] == ESC && !IsFe(a[1]) && a[1] == '[' {
      SpanAppend(a, b, 2, IsParam);
      SpanAppend(a, b, Span(a, 2, IsParam), IsIntermediate);
    }
  }

  /** No match straddles a break character: the stripper works piecewise
    * across a boundary followed by any character outside 0x20-0x7E. */
  lemma {:induction false} StripAppend(a: string, b: string)
    requires b == [] || IsBreak(b[0])
    ensures Strip(a + b) == Strip(a) + Strip(b)
    decreases |a|
  {
    if a == [] {
      assert a + b == b;
    } else {
      var n := MatchLength(a);
      MatchLengthAppend(a, b);
      if n == 0 {
        assert (a + b)[1..] == a[1..] + b;
        StripAppend(a[1..], b);
        StripAppendKept(a, b);
      } else {
        assert (a + b)[n..] == a[n..] + b;
        StripAppend(a[n..], b);
        StripAppendDropped(a, b, n);
      }
    }
  }

  /** One step of StripAppend when a starts with a kept character. */
  lemma StripAppendKept(a: string, b: string)
    requires a != [] && MatchLength(a) == 0 && MatchLength(a + b) == 0
    requires Strip((a + b)[1..]) == Strip(a[1..]) + Strip(b)
    ensures Strip(a + b) == Strip(a) + Strip(b)
  {
    assert (a + b)[0] == a[0];
  }

  /** One step of StripAppend when a starts with a match of length n. */
  lemma StripAppendDropped(a: string, b: string, n: nat)
    requires 0 < n == MatchLength(a) == MatchLength(a + b)
    requires Strip((a + b)[n..]) == Strip(a[n..]) + Strip(b)
    ensures Strip(a + b) == Strip(a) + Strip(b)
  {
  }

  /** Text between two complete escape sequences strips as it would alone. */
  lemma StripWrapped(prefix: string, line: string, suffix: string)
    requires IsEscapeSequence(prefix) && IsEscapeSequence(suffix)
    ensures Strip(prefix + line + suffix) == Strip(line)
  {
    assert prefix + line + suffix == prefix + (line + suffix);
    StripAfterEscape(prefix, line + suffix);
    StripAppend(line, suffix);
    StripEscapeSequence(suffix);
    assert Strip(line) + [] == Strip(line);
  }

  /** ESC [ P* F with final byte F is an escape sequence. */
  lemma {:induction false} ControlSequence(params: string, final: char)
    requires forall i :: 0 <= i < |params| ==> IsParam(params[i])
    requires IsFinal(final)
    ensures IsEscapeSequence([ESC, '['] + params + [final])
  {
    ParamsThenFinal(params, final);
    assert ([ESC, '['] + params + [final])[2..] == params + [final];
  }

  lemma {:induction false} ParamsThenFinal(params: string, final: char)
    requires forall i :: 0 <= i < |params| ==> IsParam(params[i])
    requires IsFinal(final)
    ensures ParamTail(params + [final])
    decreases |params|
  {
    if params != [] {
      ParamsThenFinal(params[1..], final);
      assert (params + [final])[1..] == params[1..] + [final];
    }
  }

  /** ESC [ params m: Select Graphic Rendition (section 8.3.117 of
    * ECMA-48), the form of every colour code. */
  function Sgr(params: string): string
  {
    [ESC, '['] + params + ['m']
  }

  /** A colour code is one complete control sequence. */
  lemma SgrIsEscape(params: string)
    requires forall i :: 0 <= i < |params| ==> IsParam(params[i])
    ensures IsEscapeSequence(Sgr(params))
  {
    ControlSequence(params, 'm');
  }

  /** A character where no match starts is kept. */
  lemma StripKeptHead(c: char, x: string)
    requires MatchLength([c] + x) == 0
    ensures Strip([c] + x) == [c] + Strip(x)
  {
    assert ([c] + x)[1..] == x;
  }

  /** An ESC in front of a complete sequence is kept: the sequence is
    * removed and the lone ESC stays in front of what follows. */
  lemma StripNested(t: string, x: string)
    requires IsEscapeSequence(t)
    requires forall i :: 0 <= i < |x| ==> x[i] != ESC
    ensures Strip([ESC] + t + x) == [ESC] + x
  {
    EscapeSequenceShape(t);
    assert [ESC] + t + x == [ESC] + (t + x);
    StripKeptHead(ESC, t + x);
    StripAfterEscape(t, x);
    StripNoEscape(x);
  }

  /** Stripping is not idempotent: removing an inner sequence can join an
    * outer ESC to the text after it. With t = "\x1b[0m" the input is
    * "\x1b\x1b[0m[0m": one pass leaves "\x1b[0m", a second leaves "". */
  lemma StripNotIdempotent(t: string)
    requires IsEscapeSequence(t)
    ensures Strip([ESC] + t + t[1..]) == t
    ensures Strip(Strip([ESC] + t + t[1..])) == [] != t
  {
    EscapeSequenceShape(t);
    StripNested(t, t[1..]);
    assert [ESC] + t[1..] == t;
    StripEscapeSequence(t);
  }
}
