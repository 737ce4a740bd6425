/** The glob patterns of the key-value store's `SCAN … MATCH`: `*` any run of
    characters, `?` one character, `[…]` a class (with `^` negation, `a-z`
    ranges and `\` escapes), `\x` the character x itself. */
module Glob {
  import opened Basics

  /** Characters with a meaning in a pattern. */
  predicate IsSpecial(c: char) {
    c == '*' || c == '?' || c == '[' || c == '\\'
  }

  /** A pattern with no special character: it stands for itself. */
  predicate IsLiteral(p: string) {
    forall i :: 0 <= i < |p| ==> !IsSpecial(p[i])
  }

  /** `c` lies between the range ends, taken in either order. */
  predicate InRange(c: char, lo: char, hi: char) {
    if lo <= hi then lo <= c <= hi else hi <= c <= lo
  }

  /** Scans a class body (after `[` and any `^`) for `c`: whether some item
      matched, and the pattern left after the closing `]`. An unclosed class
      runs to the end of the pattern. */
  function ClassMatch(p: string, c: char, matched: bool): (r: (bool, string))
    ensures |r.1| < |p| || r.1 == []
    decreases |p|
  {
    if |p| >= 2 && p[0] == '\\' then ClassMatch(p[2..], c, matched || p[1] == c)
    else if p == [] then (matched, [])
    else if p[0] == ']' then (matched, p[1..])
    else if |p| >= 3 && p[1] == '-' then ClassMatch(p[3..], c, matched || InRange(c, p[0], p[2]))
    else ClassMatch(p[1..], c, matched || p[0] == c)
  }

  /** `p` matches the whole of `s`; a pattern without special characters
      matches nothing but itself. */
  function Matches(p: string, s: string): (r: bool)
    ensures r && IsLiteral(p) ==> s == p
    decreases |p| + |s|
  {
    if p == [] then s == []
    else if p[0] == '*' then Matches(p[1..], s) || (s != [] && Matches(p, s[1..]))
    else if s == [] then false
    else if p[0] == '?' then Matches(p[1..], s[1..])
    else if p[0] == '[' then
      var negate := |p| >= 2 && p[1] == '^';
      var scanned := ClassMatch(if negate then p[2..] else p[1..], s[0], false);
      (if negate then !scanned.0 else scanned.0) && Matches(scanned.1, s[1..])
    else if p[0] == '\\' && |p| >= 2 then s[0] == p[1] && Matches(p[2..], s[1..])
    else s[0] == p[0] && Matches(p[1..], s[1..])
  }

  /** The filter `SCAN … MATCH pattern` applies to a key: the pattern `*`
      skips filtering, and the empty key matches only the empty pattern. */
  function ScanMatches(pattern: string, key: string): (r: bool)
    ensures pattern == "*" ==> r
    ensures IsLiteral(pattern) ==> (r <==> key == pattern)
  {
    if pattern == "*" then assert IsSpecial(pattern[0]); true
    else if key == [] then pattern == []
    else if IsLiteral(pattern) then LiteralMatchesItself(pattern, key); Matches(pattern, key)
    else Matches(pattern, key)
  }

  /** A key matched by a pattern that starts with a literal starts with that
      literal. */
  lemma {:induction false} LiteralPrefixForced(lit: string, rest: string, s: string)
    requires IsLiteral(lit)
    requires Matches(lit + rest, s)
    ensures HasPrefix(s, lit)
  {
    if lit != [] {
      var p := lit + rest;
      assert p[0] == lit[0] && !IsSpecial(p[0]);
      assert p[1..] == lit[1..] + rest;
      LiteralPrefixForced(lit[1..], rest, s[1..]);
    }
  }

  /** `*` matches every string. */
  lemma {:induction false} StarMatchesAll(s: string)
    ensures Matches("*", s)
  {
    if s != [] {
      StarMatchesAll(s[1..]);
    }
  }

  /** `lit*` matches exactly the strings that start with `lit`. */
  lemma {:induction false} LiteralStarMatchesPrefix(lit: string, s: string)
    requires IsLiteral(lit)
    ensures Matches(lit + "*", s) <==> HasPrefix(s, lit)
  {
    if lit == [] {
      assert lit + "*" == "*";
      StarMatchesAll(s);
    } else {
      var p := lit + "*";
      assert p[0] == lit[0] && !IsSpecial(p[0]);
      assert p[1..] == lit[1..] + "*";
      if s != [] {
        LiteralStarMatchesPrefix(lit[1..], s[1..]);
        assert HasPrefix(s, lit) <==> s[0] == lit[0] && HasPrefix(s[1..], lit[1..]);
      }
    }
  }

  /** A literal pattern matches only itself. */
  lemma {:induction false} LiteralMatchesItself(lit: string, s: string)
    requires IsLiteral(lit)
    ensures Matches(lit, s) <==> s == lit
  {
    if lit != [] && s != [] {
      assert !IsSpecial(lit[0]);
      LiteralMatchesItself(lit[1..], s[1..]);
      assert s == lit <==> s[0] == lit[0] && s[1..] == lit[1..];
    }
  }
}
