/** The three string operations of the JavaScript runtime the dashboard relies on:
    `String.prototype.trim` (to ignore a blank search box), `toLowerCase` and
    `includes` (to pick an icon or a background from a condition label). */
module Text {

  /** The characters `trim` strips: the ECMAScript WhiteSpace and LineTerminator sets. */
  predicate IsWhitespace(c: char)
  {
    || '\t' <= c <= '\r'                   // tab, line feed, vertical tab, form feed, carriage return
    || c == ' ' || c == '\U{00A0}' || c == '\U{1680}'
    || '\U{2000}' <= c <= '\U{200A}'       // the typographic spaces
    || c == '\U{2028}' || c == '\U{2029}'  // line and paragraph separators
    || c == '\U{202F}' || c == '\U{205F}' || c == '\U{3000}'
    || c == '\U{FEFF}'                     // byte order mark
  }

  /** Every character of `s` is whitespace (the empty string included). */
  ghost predicate Blank(s: string)
  {
    forall i :: 0 <= i < |s| ==> IsWhitespace(s[i])
  }

  /** Drops the leading whitespace of `s`. */
  function TrimStart(s: string): string
  {
    if s != [] && IsWhitespace(s[0]) then TrimStart(s[1..]) else s
  }

  /** Drops the trailing whitespace of `s`. */
  function TrimEnd(s: string): string
  {
    if s != [] && IsWhitespace(s[|s| - 1]) then TrimEnd(s[..|s| - 1]) else s
  }

  /** `TrimStart` keeps a suffix, what it drops is whitespace, and what it keeps does
      not start with whitespace. */
  lemma {:induction false} TrimStartDropsLeadingBlank(s: string)
    ensures var r := TrimStart(s);
      && |r| <= |s| && r == s[|s| - |r|..]
      && Blank(s[..|s| - |r|])
      && (r != [] ==> !IsWhitespace(r[0]))
  {
    if s != [] && IsWhitespace(s[0]) {
      var rest := TrimStart(s[1..]);
      TrimStartDropsLeadingBlank(s[1..]);
      assert s[1..][..|s[1..]| - |rest|] == s[1..|s| - |rest|];
    }
  }

  /** `TrimEnd` keeps a prefix, what it drops is whitespace, and what it keeps does not
      end with whitespace. */
  lemma {:induction false} TrimEndDropsTrailingBlank(s: string)
    ensures var r := TrimEnd(s);
      && |r| <= |s| && r == s[..|r|]
      && Blank(s[|r|..])
      && (r != [] ==> !IsWhitespace(r[|r| - 1]))
  {
    if s != [] && IsWhitespace(s[|s| - 1]) {
      var rest := TrimEnd(s[..|s| - 1]);
      TrimEndDropsTrailingBlank(s[..|s| - 1]);
      forall i | |rest| <= i < |s| ensures IsWhitespace(s[i]) {
        if i < |s| - 1 {
          assert s[..|s| - 1][|rest|..][i - |rest|] == s[i];
        }
      }
      assert forall k :: 0 <= k < |s[|rest|..]| ==> s[|rest|..][k] == s[|rest| + k];
    }
  }

  /** `s.trim()`. */
  function Trim(s: string): string
  {
    TrimEnd(TrimStart(s))
  }

  /** `!s.trim()` holds exactly when the string is made of whitespace only. */
  lemma TrimEmptyIffBlank(s: string)
    ensures Trim(s) == [] <==> Blank(s)
  {
    var t := TrimStart(s);
    TrimStartDropsLeadingBlank(s);
    TrimEndDropsTrailingBlank(t);
    if Trim(s) == [] {
      assert t[0..] == t;
      assert t == [];
      assert s[..|s|] == s;
    } else {
      assert t != [] && !IsWhitespace(t[0]);
      assert t[0] == s[|s| - |t|];
    }
  }

  /** `toLowerCase` on the ASCII letters; every other character is kept. */
  function LowerChar(c: char): char
  {
    if 'A' <= c <= 'Z' then (c as int + 32) as char else c
  }

  /** `s.toLowerCase()`, character by character. */
  function ToLower(s: string): (r: string)
    ensures |r| == |s|
    ensures forall i :: 0 <= i < |s| ==> r[i] == LowerChar(s[i])
  {
    if s == [] then [] else [LowerChar(s[0])] + ToLower(s[1..])
  }

  /** `s.includes(sub)`: `sub` occurs in `s` as a contiguous block. */
  predicate Includes(s: string, sub: string)
  {
    IncludesFrom(s, sub, 0)
  }

  /** Some position at or after `i` starts a copy of `sub`; positions are tried in order. */
  predicate IncludesFrom(s: string, sub: string, i: nat)
    decreases |s| - i
  {
    i + |sub| <= |s| && (MatchesAt(s, sub, i, 0) || IncludesFrom(s, sub, i + 1))
  }

  /** The characters of `sub` from `j` on agree with those of `s` from `i + j` on. */
  predicate MatchesAt(s: string, sub: string, i: nat, j: nat)
    requires i + |sub| <= |s| && j <= |sub|
    decreases |sub| - j
  {
    j == |sub| || (s[i + j] == sub[j] && MatchesAt(s, sub, i, j + 1))
  }

  /** `IncludesFrom` on the lower-cased string, with the lowering done as characters are compared. */
  predicate FoldedIncludesFrom(s: string, sub: string, i: nat)
    decreases |s| - i
  {
    i + |sub| <= |s| && (FoldedMatchesAt(s, sub, i, 0) || FoldedIncludesFrom(s, sub, i + 1))
  }

  predicate FoldedMatchesAt(s: string, sub: string, i: nat, j: nat)
    requires i + |sub| <= |s| && j <= |sub|
    decreases |sub| - j
  {
    j == |sub| || (LowerChar(s[i + j]) == sub[j] && FoldedMatchesAt(s, sub, i, j + 1))
  }

  /** Searching the lower-cased string is searching with the lowering done on the fly. */
  lemma {:induction false} IncludesLowerFolded(s: string, sub: string, i: nat)
    ensures IncludesFrom(ToLower(s), sub, i) == FoldedIncludesFrom(s, sub, i)
    decreases |s| - i
  {
    if i + |sub| <= |s| {
      MatchesLowerFolded(s, sub, i, 0);
      IncludesLowerFolded(s, sub, i + 1);
    }
  }

  lemma {:induction false} MatchesLowerFolded(s: string, sub: string, i: nat, j: nat)
    requires i + |sub| <= |s| && j <= |sub|
    ensures MatchesAt(ToLower(s), sub, i, j) == FoldedMatchesAt(s, sub, i, j)
    decreases |sub| - j
  {
    if j < |sub| {
      MatchesLowerFolded(s, sub, i, j + 1);
    }
  }

  /** `sub` occurs in `s` starting at position `i`. */
  ghost predicate OccursAt(s: string, sub: string, i: int)
  {
    0 <= i <= |s| - |sub| && s[i..i + |sub|] == sub
  }

  lemma {:induction false} MatchesAtIffSlice(s: string, sub: string, i: nat, j: nat)
    requires i + |sub| <= |s| && j <= |sub|
    ensures MatchesAt(s, sub, i, j) <==> s[i + j..i + |sub|] == sub[j..]
    decreases |sub| - j
  {
    if j < |sub| {
      MatchesAtIffSlice(s, sub, i, j + 1);
      assert s[i + j..i + |sub|] == [s[i + j]] + s[i + j + 1..i + |sub|];
      assert sub[j..] == [sub[j]] + sub[j + 1..];
    }
  }

  lemma {:induction false} IncludesFromIffOccurs(s: string, sub: string, i: nat)
    ensures IncludesFrom(s, sub, i) <==> exists k :: i <= k && OccursAt(s, sub, k)
    decreases |s| - i
  {
    if i + |sub| <= |s| {
      MatchesAtIffSlice(s, sub, i, 0);
      IncludesFromIffOccurs(s, sub, i + 1);
      if !IncludesFrom(s, sub, i) {
        forall k | i <= k ensures !OccursAt(s, sub, k) {
          if k == i { assert !MatchesAt(s, sub, i, 0); }
        }
      } else if MatchesAt(s, sub, i, 0) {
        assert OccursAt(s, sub, i);
      }
    } else {
      forall k | i <= k ensures !OccursAt(s, sub, k) { }
    }
  }

  /** `Includes` holds exactly when some position of `s` starts a copy of `sub`. */
  lemma IncludesIffOccurs(s: string, sub: string)
    ensures Includes(s, sub) <==> exists i :: OccursAt(s, sub, i)
  {
    IncludesFromIffOccurs(s, sub, 0);
  }
}
