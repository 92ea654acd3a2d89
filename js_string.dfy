/**
 The few ECMAScript `String.prototype` operations the handler relies on:
 `trim`, `startsWith`, `includes`, `replace` with a string pattern,
 `substring(0, n)` and the decimal rendering of a number in a template
 literal. Strings are sequences of characters.
 */
module JsString {
  import opened Wrappers

  /** The characters `trim` removes: ECMAScript WhiteSpace and LineTerminator. */
  predicate IsWhitespace(c: char) {
    || '\U{0009}' <= c <= '\U{000D}'  // tab, line feed, vertical tab, form feed, carriage return
    || c == '\U{0020}' || c == '\U{00A0}' || c == '\U{1680}'
    || '\U{2000}' <= c <= '\U{200A}'  // the Unicode space separators
    || c == '\U{2028}' || c == '\U{2029}' || c == '\U{202F}' || c == '\U{205F}'
    || c == '\U{3000}' || c == '\U{FEFF}'
  }

  predicate AllWhitespace(s: string) {
    forall i :: 0 <= i < |s| ==> IsWhitespace(s[i])
  }

  /** Drops leading whitespace, one character at a time. */
  function TrimStart(s: string): string
    decreases |s|
  {
    if |s| > 0 && IsWhitespace(s[0]) then TrimStart(s[1..]) else s
  }

  /** Drops trailing whitespace, one character at a time. */
  function TrimEnd(s: string): string
    decreases |s|
  {
    if |s| > 0 && IsWhitespace(s[|s| - 1]) then TrimEnd(s[..|s| - 1]) else s
  }

  /** `TrimStart` leaves the suffix after a whitespace run, and that suffix does not start with whitespace. */
  lemma {:induction false} TrimStartSuffix(s: string)
    ensures var r := TrimStart(s);
      && |r| <= |s| && r == s[|s| - |r|..]
      && AllWhitespace(s[..|s| - |r|])
      && (r == [] || !IsWhitespace(r[0]))
    decreases |s|
  {
    if |s| > 0 && IsWhitespace(s[0]) {
      var r := TrimStart(s[1..]);
      TrimStartSuffix(s[1..]);
      assert s[1..][|s| - 1 - |r|..] == s[|s| - |r|..];
      forall i | 0 <= i < |s| - |r| ensures IsWhitespace(s[i]) {
        if i > 0 { assert s[i] == s[1..][..|s| - 1 - |r|][i - 1]; }
      }
    } else {
      assert s[..0] == [];
    }
  }

  /** `TrimEnd` leaves the prefix before a whitespace run, and that prefix does not end with whitespace. */
  lemma {:induction false} TrimEndPrefix(s: string)
    ensures var r := TrimEnd(s);
      && |r| <= |s| && r == s[..|r|]
      && AllWhitespace(s[|r|..])
      && (r == [] || !IsWhitespace(r[|r| - 1]))
    decreases |s|
  {
    if |s| > 0 && IsWhitespace(s[|s| - 1]) {
      var t := s[..|s| - 1];
      var r := TrimEnd(t);
      TrimEndPrefix(t);
      assert t[..|r|] == s[..|r|];
      forall i | |r| <= i < |s| ensures IsWhitespace(s[i]) {
        if i < |s| - 1 { assert s[i] == t[|r|..][i - |r|]; }
      }
    } else {
      assert s[|s|..] == [];
    }
  }

  /** `s.trim()`: leading, then trailing whitespace dropped. */
  function Trim(s: string): string {
    TrimEnd(TrimStart(s))
  }

  /** The trimmed string is an infix of `s` with only whitespace around it and none at its ends. */
  lemma TrimInfix(s: string)
    ensures var r := Trim(s);
      && (exists k :: 0 <= k <= |s| - |r| && r == s[k..k + |r|]
                      && AllWhitespace(s[..k]) && AllWhitespace(s[k + |r|..]))
      && (r == [] || (!IsWhitespace(r[0]) && !IsWhitespace(r[|r| - 1])))
  {
    var t := TrimStart(s);
    var r := TrimEnd(t);
    TrimStartSuffix(s);
    TrimEndPrefix(t);
    var k := |s| - |t|;
    assert r == s[k..k + |r|];
    assert s[k + |r|..] == t[|r|..];
    assert 0 <= k <= |s| - |r| && r == s[k..k + |r|] && AllWhitespace(s[..k]) && AllWhitespace(s[k + |r|..]);
  }

  /** Trimming yields the empty string exactly when every character is whitespace. */
  lemma TrimEmptyIff(s: string)
    ensures Trim(s) == [] <==> AllWhitespace(s)
  {
    var t := TrimStart(s);
    TrimStartSuffix(s);
    TrimEndPrefix(t);
    var k := |s| - |t|;
    if Trim(s) == [] {
      assert t[0..] == t;
      assert t == [];
      assert s[..k] == s;
    }
  }

  /** `s.startsWith(p)`. */
  predicate StartsWith(s: string, p: string) {
    |p| <= |s| && s[..|p|] == p
  }

  /** `pat` occurs in `s` at index `j`. */
  predicate MatchesAt(s: string, pat: string, j: int) {
    0 <= j && j + |pat| <= |s| && s[j..j + |pat|] == pat
  }

  /** `s.indexOf(pat)`, with `None` for -1: the least index where `pat` occurs. */
  function IndexOf(s: string, pat: string): (r: Option<nat>)
    ensures r.Some? ==> MatchesAt(s, pat, r.value)
    ensures r.Some? ==> forall j :: 0 <= j < r.value ==> !MatchesAt(s, pat, j)
    ensures r.None? ==> forall j :: !MatchesAt(s, pat, j)
    decreases |s|
  {
    if StartsWith(s, pat) then Some(0)
    else if |s| == 0 then None
    else
      var rest := IndexOf(s[1..], pat);
      assert forall j :: 0 <= j ==> (MatchesAt(s, pat, j + 1) <==> MatchesAt(s[1..], pat, j)) by {
        forall j | 0 <= j ensures MatchesAt(s, pat, j + 1) <==> MatchesAt(s[1..], pat, j) {
          if j + 1 + |pat| <= |s| { assert s[1..][j..j + |pat|] == s[j + 1..j + 1 + |pat|]; }
        }
      }
      assert !MatchesAt(s, pat, 0);
      assert forall j :: 1 <= j ==> MatchesAt(s, pat, j) == MatchesAt(s[1..], pat, j - 1) by {
        forall j | 1 <= j ensures MatchesAt(s, pat, j) == MatchesAt(s[1..], pat, j - 1) {
          assert MatchesAt(s, pat, (j - 1) + 1) <==> MatchesAt(s[1..], pat, j - 1);
        }
      }
      match rest
      case None => None
      case Some(i) => Some(i + 1)
  }

  /** `s.includes(sub)`: the fragment occurs at some index. */
  predicate Contains(s: string, sub: string) {
    exists j | 0 <= j <= |s| - |sub| :: MatchesAt(s, sub, j)
  }

  /** `includes` agrees with `indexOf`: it holds exactly when the search finds an index. */
  lemma ContainsIff(s: string, sub: string)
    ensures Contains(s, sub) <==> IndexOf(s, sub).Some?
  {
    if IndexOf(s, sub).Some? {
      assert MatchesAt(s, sub, IndexOf(s, sub).value);
    }
  }

  /**
   `s.replace(pat, rep)` with a string pattern and a replacement free of `$`
   patterns (such as the empty string): only the first occurrence is replaced,
   by `rep` taken literally.
   */
  function ReplaceFirst(s: string, pat: string, rep: string): string {
    match IndexOf(s, pat)
    case None => s
    case Some(i) => s[..i] + rep + s[i + |pat|..]
  }

  /** Replacing a leading pattern with nothing removes exactly that prefix. */
  lemma ReplaceLeading(s: string, pat: string)
    requires StartsWith(s, pat)
    ensures ReplaceFirst(s, pat, "") == s[|pat|..]
  {
    assert MatchesAt(s, pat, 0);
    assert IndexOf(s, pat) == Some(0);
  }

  /** `s.substring(0, n)`: the longest prefix of `s` of length at most `n`. */
  function Prefix(s: string, n: nat): (r: string)
    ensures |r| <= n && |r| <= |s| && r == s[..|r|]
    ensures |s| <= n ==> r == s
    ensures |s| > n ==> |r| == n
  {
    if n < |s| then s[..n] else s
  }

  /** The character of a decimal digit. */
  function Digit(d: nat): (c: char)
    requires d < 10
    ensures '0' <= c <= '9' && c as int - '0' as int == d
  {
    ['0', '1', '2', '3', '4', '5', '6', '7', '8', '9'][d]
  }

  predicate IsDecimal(s: string) {
    |s| > 0 && (forall i :: 0 <= i < |s| ==> '0' <= s[i] <= '9') && (s[0] == '0' ==> |s| == 1)
  }

  /** The number a string of decimal digits denotes. */
  function DecimalValue(s: string): nat
    requires forall i :: 0 <= i < |s| ==> '0' <= s[i] <= '9'
  {
    if s == [] then 0 else DecimalValue(s[..|s| - 1]) * 10 + (s[|s| - 1] as int - '0' as int)
  }

  /** How a number is written in a template literal: canonical decimal digits. */
  function DecimalString(n: nat): (r: string)
    ensures IsDecimal(r) && DecimalValue(r) == n
  {
    if n < 10 then [Digit(n)]
    else
      var r := DecimalString(n / 10) + [Digit(n % 10)];
      assert r[..|r| - 1] == DecimalString(n / 10);
      r
  }
}
