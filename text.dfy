/** The three string primitives of the JavaScript runtime that the chat widget
    relies on: `String.prototype.trim`, `String.prototype.toLowerCase`
    (restricted to ASCII letters) and `String.prototype.includes`. */
module Text {

  /** A character that `trim` removes: ECMAScript's WhiteSpace (tab, vertical
      tab, form feed, space, no-break space, byte-order mark and the other
      Unicode space separators) and LineTerminator (LF, CR, LS, PS). */
  predicate IsWhitespace(c: char)
  {
    c == '\t' || c == '\U{000B}' || c == '\U{000C}' || c == ' ' ||
    c == '\U{00A0}' || c == '\U{FEFF}' || c == '\U{1680}' ||
    ('\U{2000}' <= c <= '\U{200A}') || c == '\U{202F}' || c == '\U{205F}' ||
    c == '\U{3000}' ||
    c == '\n' || c == '\r' || c == '\U{2028}' || c == '\U{2029}'
  }

  /** Every character of `s` is whitespace (the empty string included). */
  predicate Blank(s: string)
  {
    forall i :: 0 <= i < |s| ==> IsWhitespace(s[i])
  }

  /** `s` with its leading whitespace removed. */
  function TrimStart(s: string): string
  {
    if |s| > 0 && IsWhitespace(s[0]) then TrimStart(s[1..]) else s
  }

  /** `s` with its trailing whitespace removed. */
  function TrimEnd(s: string): string
  {
    if |s| > 0 && IsWhitespace(s[|s| - 1]) then TrimEnd(s[..|s| - 1]) else s
  }

  /** `s.trim()`: leading and trailing whitespace removed. */
  function Trim(s: string): string
  {
    TrimEnd(TrimStart(s))
  }

  lemma {:induction false} TrimStartShape(s: string)
    ensures TrimStart(s) == [] <==> Blank(s)
    ensures TrimStart(s) != [] ==> !IsWhitespace(TrimStart(s)[0])
  {
    if |s| > 0 && IsWhitespace(s[0]) {
      TrimStartShape(s[1..]);
      assert forall i :: 0 < i < |s| ==> s[i] == s[1..][i - 1];
    }
  }

  lemma {:induction false} TrimEndShape(s: string)
    ensures TrimEnd(s) == [] <==> Blank(s)
    ensures TrimEnd(s) != [] ==> !IsWhitespace(TrimEnd(s)[|TrimEnd(s)| - 1])
    ensures TrimEnd(s) != [] ==> TrimEnd(s)[0] == s[0]
  {
    if |s| > 0 && IsWhitespace(s[|s| - 1]) {
      TrimEndShape(s[..|s| - 1]);
      assert forall i :: 0 <= i < |s| - 1 ==> s[i] == s[..|s| - 1][i];
    }
  }

  /** `s.trim()` is empty exactly when `s` is all whitespace; otherwise the
      trimmed string neither starts nor ends with whitespace. */
  lemma TrimEmptyIff(s: string)
    ensures Trim(s) == [] <==> Blank(s)
    ensures Trim(s) != [] ==> !IsWhitespace(Trim(s)[0]) && !IsWhitespace(Trim(s)[|Trim(s)| - 1])
  {
    TrimStartShape(s);
    TrimEndShape(TrimStart(s));
  }

  /** `toLowerCase` on one character, ASCII letters only. */
  function Lower(c: char): char
  {
    if 'A' <= c <= 'Z' then (c as int - 'A' as int + 'a' as int) as char else c
  }

  /** `s.toLowerCase()`, character by character. */
  function LowerStr(s: string): (r: string)
    ensures |r| == |s|
  {
    seq(|s|, i requires 0 <= i < |s| => Lower(s[i]))
  }

  /** No ASCII capital letter occurs in `s`. */
  predicate IsLowerCase(s: string)
  {
    forall i :: 0 <= i < |s| ==> !('A' <= s[i] <= 'Z')
  }

  /** Lower-casing leaves no capital behind and changes nothing else. */
  lemma LowerStrIsLowerCase(s: string)
    ensures IsLowerCase(LowerStr(s))
    ensures IsLowerCase(s) <==> LowerStr(s) == s
  {
    if IsLowerCase(s) {
      assert forall i :: 0 <= i < |s| ==> LowerStr(s)[i] == s[i];
    }
    if LowerStr(s) == s {
      forall i | 0 <= i < |s| ensures !('A' <= s[i] <= 'Z') {
        assert LowerStr(s)[i] == Lower(s[i]);
      }
    }
  }

  /** Lower-casing twice is lower-casing once. */
  lemma LowerStrIdempotent(s: string)
    ensures LowerStr(LowerStr(s)) == LowerStr(s)
  {
    LowerStrIsLowerCase(s);
    LowerStrIsLowerCase(LowerStr(s));
  }

  /** Lower-casing commutes with taking a slice. */
  lemma LowerStrSlice(s: string, i: int, j: int)
    requires 0 <= i <= j <= |s|
    ensures LowerStr(s)[i..j] == LowerStr(s[i..j])
  {
  }

  /** `k` occurs in `s` starting at position `i`. */
  predicate OccursAt(s: string, k: string, i: int)
  {
    0 <= i && i + |k| <= |s| && s[i..i + |k|] == k
  }

  /** `s.includes(k)`: try `k` at every position of `s` from the left. */
  predicate Includes(s: string, k: string)
    decreases |s|
  {
    if |k| > |s| then false
    else if s[..|k|] == k then true
    else Includes(s[1..], k)
  }

  /** `includes` is substring containment: true exactly when `k` occurs at
      some position of `s`. */
  lemma {:induction false} IncludesIff(s: string, k: string)
    ensures Includes(s, k) <==> exists i :: OccursAt(s, k, i)
    decreases |s|
  {
    if |k| > |s| {
    } else if s[..|k|] == k {
      assert OccursAt(s, k, 0);
    } else {
      IncludesIff(s[1..], k);
      if i :| OccursAt(s, k, i) {
        assert i != 0;
        assert s[1..][i - 1..i - 1 + |k|] == s[i..i + |k|];
        assert OccursAt(s[1..], k, i - 1);
      }
      if j :| OccursAt(s[1..], k, j) {
        assert s[1..][j..j + |k|] == s[j + 1..j + 1 + |k|];
        assert OccursAt(s, k, j + 1);
      }
    }
  }

  /** An occurrence of `w` in `s` is an occurrence of the lower-cased `w` in
      the lower-cased `s`: a lower-case keyword is found whatever the case of
      the text that spells it. */
  lemma IncludesLowerCase(s: string, w: string)
    requires Includes(s, w)
    ensures Includes(LowerStr(s), LowerStr(w))
  {
    IncludesIff(s, w);
    var i :| OccursAt(s, w, i);
    LowerStrSlice(s, i, i + |w|);
    assert OccursAt(LowerStr(s), LowerStr(w), i);
    IncludesIff(LowerStr(s), LowerStr(w));
  }

  /** No position of `s` starts with the first two characters of `k`. */
  predicate NoPairStart(s: string, k: string)
  {
    |k| >= 2 && forall i :: 0 <= i && i + |k| <= |s| ==> s[i] != k[0] || s[i + 1] != k[1]
  }

  /** `k` is absent from `s` when no position of `s` starts with the first two
      characters of `k`. */
  lemma NotIncludes(s: string, k: string)
    requires NoPairStart(s, k)
    ensures !Includes(s, k)
  {
    forall i | 0 <= i && i + |k| <= |s| ensures !OccursAt(s, k, i) {
      assert s[i..i + |k|][0] == s[i] && s[i..i + |k|][1] == s[i + 1];
    }
    IncludesIff(s, k);
  }
}
