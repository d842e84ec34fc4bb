/** The few behaviours of Python's `str` that the invoice workflow relies on:
    truthiness, `strip()` and `lower()`. */
module PyText {
  import opened Wrappers

  /** A string argument that may be `None`; it is truthy when present and non-empty. */
  predicate Truthy(arg: Option<string>) {
    arg.Some? && arg.value != ""
  }

  /** Python's `arg or fallback` on an optional string. */
  function Or(arg: Option<string>, fallback: string): string {
    if Truthy(arg) then arg.value else fallback
  }

  /** The characters for which Python's `str.isspace()` holds. */
  predicate IsSpace(c: char) {
    || ('\t' <= c <= '\r')
    || ('\U{1c}' <= c <= '\U{20}')
    || c == '\U{85}' || c == '\U{a0}' || c == '\U{1680}'
    || ('\U{2000}' <= c <= '\U{200a}')
    || c == '\U{2028}' || c == '\U{2029}' || c == '\U{202f}' || c == '\U{205f}'
    || c == '\U{3000}'
  }

  /** Number of whitespace characters at the start of `s`. */
  function LeadingSpace(s: string): (n: nat)
    ensures n <= |s|
  {
    if s != [] && IsSpace(s[0]) then 1 + LeadingSpace(s[1..]) else 0
  }

  /** Number of whitespace characters at the end of `s`. */
  function TrailingSpace(s: string): (n: nat)
    ensures n <= |s|
  {
    if s != [] && IsSpace(s[|s| - 1]) then 1 + TrailingSpace(s[..|s| - 1]) else 0
  }

  /** Python's `s.strip()` with no argument. */
  function Strip(s: string): string {
    var t := s[LeadingSpace(s)..];
    t[..|t| - TrailingSpace(t)]
  }

  lemma {:induction false} LeadingSpaceIsMaximal(s: string)
    ensures forall k :: 0 <= k < LeadingSpace(s) ==> IsSpace(s[k])
    ensures LeadingSpace(s) < |s| ==> !IsSpace(s[LeadingSpace(s)])
  {
    if s != [] && IsSpace(s[0]) {
      LeadingSpaceIsMaximal(s[1..]);
    }
  }

  lemma {:induction false} TrailingSpaceIsMaximal(s: string)
    ensures forall k :: |s| - TrailingSpace(s) <= k < |s| ==> IsSpace(s[k])
    ensures TrailingSpace(s) < |s| ==> !IsSpace(s[|s| - 1 - TrailingSpace(s)])
  {
    if s != [] && IsSpace(s[|s| - 1]) {
      TrailingSpaceIsMaximal(s[..|s| - 1]);
    }
  }

  /** `strip()` keeps one contiguous slice of `s`, drops only whitespace around
      it, and drops all of it: the result neither starts nor ends with whitespace. */
  lemma StripRemovesOuterWhitespace(s: string)
    ensures var i, r := LeadingSpace(s), Strip(s);
      && i + |r| <= |s|
      && r == s[i..i + |r|]
      && (forall k :: 0 <= k < i ==> IsSpace(s[k]))
      && (forall k :: i + |r| <= k < |s| ==> IsSpace(s[k]))
      && (r != [] ==> !IsSpace(r[0]) && !IsSpace(r[|r| - 1]))
  {
    var i := LeadingSpace(s);
    var t := s[i..];
    LeadingSpaceIsMaximal(s);
    TrailingSpaceIsMaximal(t);
    var r := Strip(s);
    assert r == t[..|t| - TrailingSpace(t)];
    forall k | i + |r| <= k < |s|
      ensures IsSpace(s[k])
    {
      assert s[k] == t[k - i];
    }
    if r != [] {
      assert r[0] == t[0];
    }
  }

  function LowerChar(c: char): char {
    if 'A' <= c <= 'Z' then (c as int + 32) as char else c
  }

  function UpperChar(c: char): char {
    if 'a' <= c <= 'z' then (c as int - 32) as char else c
  }

  /** Python's `s.lower()`, with the ASCII case mapping. */
  function Lower(s: string): (r: string)
    ensures |r| == |s|
    ensures forall i :: 0 <= i < |s| ==> r[i] == LowerChar(s[i])
  {
    if s == [] then [] else [LowerChar(s[0])] + Lower(s[1..])
  }

  predicate IsLowerWord(token: string) {
    forall i :: 0 <= i < |token| ==> 'a' <= token[i] <= 'z'
  }

  lemma LowerCharMatches(c: char, t: char)
    requires 'a' <= t <= 'z'
    ensures LowerChar(c) == t <==> c == t || c == UpperChar(t)
  {
  }

  /** `s.lower() == token` for a lower-case ASCII word exactly when `s` spells
      `token` with each letter in either case. */
  lemma LowerMatches(s: string, token: string)
    requires IsLowerWord(token)
    ensures Lower(s) == token <==>
      |s| == |token| && forall i :: 0 <= i < |s| ==> s[i] == token[i] || s[i] == UpperChar(token[i])
  {
    var l := Lower(s);
    if |s| == |token| {
      forall i | 0 <= i < |s|
        ensures l[i] == token[i] <==> s[i] == token[i] || s[i] == UpperChar(token[i])
      {
        LowerCharMatches(s[i], token[i]);
      }
      if forall i :: 0 <= i < |s| ==> l[i] == token[i] {
        assert l == token;
      }
    }
  }
}
