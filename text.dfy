/**
 * The JavaScript string primitives the components rely on:
 * `String.prototype.trim` (ECMAScript 2024, section 22.1.3.32, with the
 * WhiteSpace and LineTerminator code points of sections 12.2 and 12.3),
 * `String.prototype.includes` (section 22.1.3.8) and the part of
 * `String.prototype.toLowerCase` (section 22.1.3.28) that can produce an
 * ASCII letter.
 */
module Text {

  /** A code point that `trim` removes: WhiteSpace or LineTerminator. */
  predicate IsWhitespace(c: char) {
    || c == '\t' || c == '\U{B}' || c == '\U{C}' || c == ' '
    || c == '\U{A0}' || c == '\U{FEFF}'
    // Unicode category Zs
    || c == '\U{1680}' || ('\U{2000}' <= c <= '\U{200A}')
    || c == '\U{202F}' || c == '\U{205F}' || c == '\U{3000}'
    // LineTerminator
    || c == '\n' || c == '\r' || c == '\U{2028}' || c == '\U{2029}'
  }

  ghost predicate AllWhitespace(s: string) {
    forall i :: 0 <= i < |s| ==> IsWhitespace(s[i])
  }

  /** Drops the leading white space. */
  function TrimStart(s: string): (r: string)
    ensures |r| <= |s|
    ensures r == [] || !IsWhitespace(r[0])
  {
    if |s| > 0 && IsWhitespace(s[0]) then TrimStart(s[1..]) else s
  }

  /** Drops the trailing white space. */
  function TrimEnd(s: string): (r: string)
    ensures |r| <= |s|
    ensures r == [] || !IsWhitespace(r[|r| - 1])
  {
    if |s| > 0 && IsWhitespace(s[|s| - 1]) then TrimEnd(s[..|s| - 1]) else s
  }

  lemma WhitespaceJoin(a: string, b: string)
    requires AllWhitespace(a) && AllWhitespace(b)
    ensures AllWhitespace(a + b)
  {
    forall i | 0 <= i < |a + b|
      ensures IsWhitespace((a + b)[i])
    {
      if i >= |a| {
        assert (a + b)[i] == b[i - |a|];
      }
    }
  }

  lemma ConsJoin(s: string, l: string, t: string)
    requires |s| > 0 && s[1..] == l + t
    ensures s == [s[0]] + l + t
  {
    assert s == [s[0]] + s[1..];
  }

  lemma SnocJoin(s: string, u: string, t: string)
    requires |s| > 0 && s[..|s| - 1] == u + t
    ensures s == u + (t + [s[|s| - 1]])
  {
    assert s == s[..|s| - 1] + [s[|s| - 1]];
  }

  /** What `TrimStart` drops is white space. */
  lemma {:induction false} TrimStartSplit(s: string) returns (lead: string)
    ensures s == lead + TrimStart(s) && AllWhitespace(lead)
    decreases |s|
  {
    if |s| > 0 && IsWhitespace(s[0]) {
      var l := TrimStartSplit(s[1..]);
      ConsJoin(s, l, TrimStart(s[1..]));
      WhitespaceJoin([s[0]], l);
      lead := [s[0]] + l;
    } else {
      lead := [];
    }
  }

  /** What `TrimEnd` drops is white space. */
  lemma {:induction false} TrimEndSplit(s: string) returns (trail: string)
    ensures s == TrimEnd(s) + trail && AllWhitespace(trail)
    decreases |s|
  {
    if |s| > 0 && IsWhitespace(s[|s| - 1]) {
      var t := TrimEndSplit(s[..|s| - 1]);
      SnocJoin(s, TrimEnd(s[..|s| - 1]), t);
      WhitespaceJoin(t, [s[|s| - 1]]);
      trail := t + [s[|s| - 1]];
    } else {
      trail := [];
    }
  }

  lemma SplitJoin(s: string, l: string, t: string, u: string, r: string)
    requires s == l + t && t == u + r
    ensures s == l + u + r
  {
  }

  lemma TrimSplit(s: string) returns (lead: string, trail: string)
    ensures s == lead + TrimEnd(TrimStart(s)) + trail
    ensures AllWhitespace(lead) && AllWhitespace(trail)
  {
    var t := TrimStart(s);
    lead := TrimStartSplit(s);
    trail := TrimEndSplit(t);
    SplitJoin(s, lead, t, TrimEnd(t), trail);
  }

  /** The first character after `TrimStart` is the first one `TrimEnd` keeps. */
  lemma TrimEndKeepsFirst(t: string)
    requires TrimEnd(t) != []
    ensures TrimEnd(t)[0] == t[0]
  {
    var trail := TrimEndSplit(t);
    assert t[0] == (TrimEnd(t) + trail)[0];
  }

  /** A white-space suffix of a white-space string, at the index where it starts. */
  lemma SuffixAt(s: string, lead: string, t: string)
    requires s == lead + t && t != []
    ensures t[0] == s[|lead|]
  {
  }

  /** Trimming leaves nothing exactly when the input is all white space. */
  lemma TrimEmptyIff(s: string)
    ensures TrimEnd(TrimStart(s)) == [] <==> AllWhitespace(s)
  {
    var t := TrimStart(s);
    var lead := TrimStartSplit(s);
    if TrimEnd(t) == [] {
      var trail := TrimEndSplit(t);
      WhitespaceJoin(lead, trail);
    } else if AllWhitespace(s) {
      TrimEndKeepsFirst(t);
      SuffixAt(s, lead, t);
    }
  }

  /** `s.trim()`: the input without its leading and trailing white space. */
  function Trim(s: string): (r: string)
    ensures |r| <= |s|
    ensures r == [] <==> AllWhitespace(s)
    ensures r != [] ==> !IsWhitespace(r[0]) && !IsWhitespace(r[|r| - 1])
  {
    TrimEmptyIff(s);
    if TrimEnd(TrimStart(s)) != [] then TrimEndKeepsFirst(TrimStart(s)); TrimEnd(TrimStart(s))
    else TrimEnd(TrimStart(s))
  }

  /** `s.trim()` is falsy: the string is empty or white space only. */
  predicate IsBlank(s: string)
    ensures IsBlank(s) <==> AllWhitespace(s)
  {
    Trim(s) == []
  }

  /** Trim removes only white space: the input is white space, the trimmed text, white space. */
  lemma TrimDecompose(s: string) returns (lead: string, trail: string)
    ensures s == lead + Trim(s) + trail
    ensures AllWhitespace(lead) && AllWhitespace(trail)
  {
    lead, trail := TrimSplit(s);
  }

  lemma TrimStartFixed(r: string)
    requires r == [] || !IsWhitespace(r[0])
    ensures TrimStart(r) == r
  {
  }

  lemma TrimEndFixed(r: string)
    requires r == [] || !IsWhitespace(r[|r| - 1])
    ensures TrimEnd(r) == r
  {
  }

  /** Trimming twice is trimming once. */
  lemma TrimIdempotent(s: string)
    ensures Trim(Trim(s)) == Trim(s)
  {
    var r := Trim(s);
    TrimStartFixed(r);
    TrimEndFixed(r);
  }

  /** `s.includes(k)`: `k` occurs in `s` as a contiguous substring. */
  predicate Contains(s: string, k: string)
    ensures Contains(s, k) ==> |k| <= |s|
    decreases |s|
  {
    k <= s || (|s| > 0 && Contains(s[1..], k))
  }

  /** An occurrence at any index makes `includes` true. */
  lemma {:induction false} ContainsAt(s: string, k: string, i: nat)
    requires i + |k| <= |s| && s[i..i + |k|] == k
    ensures Contains(s, k)
    decreases i
  {
    if i == 0 {
      assert k <= s;
    } else {
      assert s[1..][i - 1..i - 1 + |k|] == s[i..i + |k|];
      ContainsAt(s[1..], k, i - 1);
    }
  }

  /** When `includes` is true there is an index at which `k` occurs. */
  lemma {:induction false} ContainsWitness(s: string, k: string) returns (i: nat)
    requires Contains(s, k)
    ensures i + |k| <= |s| && s[i..i + |k|] == k
    decreases |s|
  {
    if k <= s {
      i := 0;
      assert s[..|k|] == k;
    } else {
      var j := ContainsWitness(s[1..], k);
      i := j + 1;
      assert s[1..][j..j + |k|] == s[i..i + |k|];
    }
  }

  /** A keyword with a character that the text lacks does not occur in it. */
  lemma NotContainsByChar(s: string, k: string, c: char)
    requires c in k && c !in s
    ensures !Contains(s, k)
  {
    if Contains(s, k) {
      var i := ContainsWitness(s, k);
    }
  }

  /** Keywords that each hold a character the text lacks do not occur in it. */
  lemma NoneContained(s: string, keywords: seq<string>, missing: string)
    requires |missing| == |keywords|
    requires forall i :: 0 <= i < |keywords| ==> missing[i] in keywords[i] && missing[i] !in s
    ensures forall i :: 0 <= i < |keywords| ==> !Contains(s, keywords[i])
  {
    forall i | 0 <= i < |keywords|
      ensures !Contains(s, keywords[i])
    {
      NotContainsByChar(s, keywords[i], missing[i]);
    }
  }

  predicate IsAsciiUpper(c: char) {
    'A' <= c <= 'Z'
  }

  /**
   * `toLowerCase` on one character, for the mappings whose result holds an
   * ASCII letter: the ASCII capitals, the Kelvin sign (to "k") and the
   * capital I with dot above (to "i" and a combining dot above).
   */
  function LowerChar(c: char): (r: string)
    ensures 1 <= |r| <= 2
    ensures forall i :: 0 <= i < |r| ==> !IsAsciiUpper(r[i])
    ensures IsAsciiUpper(c) ==> r == [(c as int + 32) as char]
    ensures c as int < 128 && !IsAsciiUpper(c) ==> r == [c]
  {
    if IsAsciiUpper(c) then [(c as int + 32) as char]
    else if c == '\U{212A}' then "k"
    else if c == '\U{130}' then "i\U{307}"
    else [c]
  }

  /** What `toLowerCase` yields for a character is already lower case. */
  lemma LowerCharFixed(c: char)
    ensures forall i :: 0 <= i < |LowerChar(c)| ==> LowerChar(LowerChar(c)[i]) == [LowerChar(c)[i]]
  {
  }

  /**
   * `s.toLowerCase()` as the model computes it: each character is replaced
   * by its lower-case form, without the context rules of JavaScript.
   */
  function Lower(s: string): (r: string)
    ensures |s| <= |r| <= 2 * |s|
  {
    if s == [] then [] else LowerChar(s[0]) + Lower(s[1..])
  }

  /** The model's lower-casing maps each character on its own: it distributes over concatenation. */
  lemma {:induction false} LowerAppend(a: string, b: string)
    ensures Lower(a + b) == Lower(a) + Lower(b)
    decreases |a|
  {
    if a != [] {
      assert (a + b)[0] == a[0] && (a + b)[1..] == a[1..] + b;
      LowerAppend(a[1..], b);
      assert Lower(a + b) == LowerChar(a[0]) + (Lower(a[1..]) + Lower(b));
      assert LowerChar(a[0]) + (Lower(a[1..]) + Lower(b)) == (LowerChar(a[0]) + Lower(a[1..])) + Lower(b);
    } else {
      assert a + b == b;
    }
  }

  /** A text whose characters are all lower case is its own lower-case form. */
  lemma {:induction false} LowerOfFixed(t: string)
    requires forall i :: 0 <= i < |t| ==> LowerChar(t[i]) == [t[i]]
    ensures Lower(t) == t
    decreases |t|
  {
    if t != [] {
      LowerOfFixed(t[1..]);
    }
  }

  /** Lower-casing an already lower-cased string changes nothing. */
  lemma {:induction false} LowerIdempotent(s: string)
    ensures Lower(Lower(s)) == Lower(s)
    decreases |s|
  {
    if s != [] {
      var head := LowerChar(s[0]);
      LowerAppend(head, Lower(s[1..]));
      LowerCharFixed(s[0]);
      LowerOfFixed(head);
      LowerIdempotent(s[1..]);
    }
  }
}
