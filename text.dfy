/**
 * The string operations of JavaScript that the modelled code relies on:
 * `trim`, `startsWith`, `includes`, `slice`, `join`, `repeat`, ASCII
 * `toLowerCase` and the decimal rendering of integers. A string is a
 * `seq<char>` with one character per position; the model does not tell
 * UTF-16 surrogate pairs apart from single characters.
 */
module Text {
  import opened Wrappers

  /**
   * The code points `String.prototype.trim` removes: WhiteSpace and
   * LineTerminator of ECMA-262 (sections 12.2 and 12.3), including every
   * space separator of Unicode category Zs.
   */
  predicate IsSpace(c: char) {
    c == '\t' || c == '\n' || c == '\U{B}' || c == '\U{C}' || c == '\r' || c == ' '
    || c == '\U{A0}' || c == '\U{1680}' || ('\U{2000}' <= c <= '\U{200A}')
    || c == '\U{2028}' || c == '\U{2029}' || c == '\U{202F}' || c == '\U{205F}'
    || c == '\U{3000}' || c == '\U{FEFF}'
  }

  /** Every character of `s` is white space (the empty string included). */
  predicate Blank(s: string) {
    forall i :: 0 <= i < |s| ==> IsSpace(s[i])
  }

  /** How many characters of white space `s` starts with. */
  function LeadingSpaces(s: string): (n: nat)
    ensures n <= |s| && (n == |s| || !IsSpace(s[n]))
    ensures forall i :: 0 <= i < n ==> IsSpace(s[i])
  {
    if s != [] && IsSpace(s[0]) then 1 + LeadingSpaces(s[1..]) else 0
  }

  /** How many characters of white space `s` ends with. */
  function TrailingSpaces(s: string): (n: nat)
    ensures n <= |s| && (n == |s| || !IsSpace(s[|s| - n - 1]))
    ensures forall i :: |s| - n <= i < |s| ==> IsSpace(s[i])
  {
    if s != [] && IsSpace(s[|s| - 1]) then 1 + TrailingSpaces(s[..|s| - 1]) else 0
  }

  /** `s.trimStart()`: the suffix of `s` after its leading white space. */
  function TrimStart(s: string): (r: string)
    ensures |r| <= |s| && r == s[|s| - |r|..]
    ensures Blank(s[..|s| - |r|])
    ensures r == [] || !IsSpace(r[0])
  {
    s[LeadingSpaces(s)..]
  }

  /** `s.trimEnd()`: the prefix of `s` before its trailing white space. */
  function TrimEnd(s: string): (r: string)
    ensures |r| <= |s| && r == s[..|r|]
    ensures Blank(s[|r|..])
    ensures r == [] || !IsSpace(r[|r| - 1])
  {
    s[..|s| - TrailingSpaces(s)]
  }

  /** `s.trim()`. */
  function Trim(s: string): string {
    TrimEnd(TrimStart(s))
  }

  /** A trimmed string is empty exactly when the original was all white space. */
  lemma TrimEmptyIff(s: string)
    ensures Trim(s) == [] <==> Blank(s)
  {
    var a := TrimStart(s);
    if Trim(s) == [] {
      assert a[0..] == a;
      assert a == [];
      assert s[..|s| - |a|] == s;
    } else {
      var r := Trim(s);
      assert !IsSpace(r[0]) && r[0] == a[0] && a[0] == s[|s| - |a|];
    }
  }

  /** A trimmed string neither starts nor ends with white space. */
  lemma TrimmedHasNoOuterSpace(s: string)
    ensures Trim(s) == [] || (!IsSpace(Trim(s)[0]) && !IsSpace(Trim(s)[|Trim(s)| - 1]))
  {
    var a := TrimStart(s);
    var r := TrimEnd(a);
    if r != [] {
      assert r[0] == a[0];
    }
  }

  /** Trimming twice is trimming once. */
  lemma TrimIdempotent(s: string)
    ensures Trim(Trim(s)) == Trim(s)
  {
    var r := Trim(s);
    TrimmedHasNoOuterSpace(s);
    if r != [] {
      assert TrimStart(r) == r;
      assert TrimEnd(r) == r;
    }
  }

  /** `s.startsWith(p)`. */
  predicate StartsWith(s: string, p: string) {
    |p| <= |s| && s[..|p|] == p
  }

  /** `sub` occurs in `s` starting at position `i`. */
  predicate OccursAt(s: string, sub: string, i: nat) {
    i + |sub| <= |s| && s[i..i + |sub|] == sub
  }

  /** `s.includes(sub)`: `sub` occurs somewhere in `s`. */
  function Contains(s: string, sub: string): (r: bool)
    ensures r <==> exists i: nat :: OccursAt(s, sub, i)
  {
    if StartsWith(s, sub) then
      assert OccursAt(s, sub, 0);
      true
    else if |s| <= |sub| then
      assert |s| == |sub| ==> s[..|sub|] == s[0..0 + |sub|];
      false
    else
      var r := Contains(s[1..], sub);
      assert forall i: nat :: OccursAt(s[1..], sub, i) <==> OccursAt(s, sub, i + 1) by {
        forall i: nat ensures OccursAt(s[1..], sub, i) <==> OccursAt(s, sub, i + 1) {
          if i + |sub| <= |s[1..]| {
            DropSlice(s, i, |sub|);
          }
        }
      }
      assert (exists i: nat :: OccursAt(s, sub, i)) ==> r by {
        if i: nat :| OccursAt(s, sub, i) {
          assert i != 0 by { assert s[..|sub|] == s[0..0 + |sub|]; }
          assert OccursAt(s[1..], sub, i - 1);
        }
      }
      r
  }

  lemma DropSlice(s: string, i: nat, n: nat)
    requires i + n + 1 <= |s|
    ensures s[1..][i..i + n] == s[i + 1..i + 1 + n]
  {
  }

  /** ASCII upper-case letters turned to lower case; everything else kept. */
  function LowerChar(c: char): char {
    if 'A' <= c <= 'Z' then (c as int + 32) as char else c
  }

  /** `s.toLowerCase()` restricted to ASCII letters. */
  function ToLower(s: string): (r: string)
    ensures |r| == |s| && forall i :: 0 <= i < |s| ==> r[i] == LowerChar(s[i])
  {
    seq(|s|, i requires 0 <= i < |s| => LowerChar(s[i]))
  }

  /** `items.join(sep)`. */
  function Join(items: seq<string>, sep: string): string {
    if items == [] then []
    else if |items| == 1 then items[0]
    else items[0] + sep + Join(items[1..], sep)
  }

  /** A joined list starts with its first item. */
  lemma {:induction false} JoinStartsWithFirst(items: seq<string>, sep: string)
    requires items != []
    ensures StartsWith(Join(items, sep), items[0])
  {
    if |items| > 1 {
      assert Join(items, sep) == items[0] + (sep + Join(items[1..], sep));
    }
  }

  /** `c.repeat(n)`. */
  function Repeat(c: char, n: nat): (r: string)
    ensures |r| == n && forall i :: 0 <= i < n ==> r[i] == c
  {
    if n == 0 then [] else [c] + Repeat(c, n - 1)
  }

  /** The decimal digits of a natural number, as `String(n)` renders it. */
  function NatToString(n: nat): (r: string)
    ensures r != []
    decreases n
  {
    if n < 10 then [DigitChar(n)] else NatToString(n / 10) + [DigitChar(n % 10)]
  }

  function DigitChar(d: nat): char
    requires d < 10
  {
    ("0123456789")[d]
  }

  /** `String(n)` for an integer. */
  function IntToString(n: int): string {
    if n < 0 then "-" + NatToString(-n) else NatToString(n)
  }

  /** An optional string that JavaScript treats as true: present and non-empty. */
  predicate Truthy(s: Option<string>) {
    s.Some? && s.value != ""
  }
}
