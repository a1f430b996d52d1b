/** Shared building blocks: optional values, results, decimal text and the few
    string operations the application performs (substring search,
    lower-casing, UTF-16 length). */
module Common {

  datatype Option<+T> = None | Some(value: T)

  datatype Result<+R, +E> = Ok(value: R) | Err(error: E)

  /** A decimal digit character. */
  predicate IsDigit(c: char) {
    '0' <= c <= '9'
  }

  function DigitChar(d: nat): (c: char)
    requires d < 10
    ensures IsDigit(c) && c as int - '0' as int == d
  {
    ('0' as int + d) as char
  }

  function DigitValue(c: char): (d: nat)
    requires IsDigit(c)
    ensures d < 10 && DigitChar(d) == c
  {
    (c as int - '0' as int) as nat
  }

  /** The decimal rendering of a natural number, as JavaScript's `String(n)`. */
  function NatToString(n: nat): (s: string)
    ensures |s| >= 1
    ensures forall i :: 0 <= i < |s| ==> IsDigit(s[i])
    decreases n
  {
    if n < 10 then [DigitChar(n)] else NatToString(n / 10) + [DigitChar(n % 10)]
  }

  /** The decimal rendering of an integer, with a leading '-' when negative. */
  function IntToString(n: int): string {
    if n < 0 then "-" + NatToString(-n) else NatToString(n)
  }

  /** Reads a non-empty run of decimal digits back into a number. */
  function ParseNat(s: string): nat
    requires forall i :: 0 <= i < |s| ==> IsDigit(s[i])
    decreases |s|
  {
    if |s| == 0 then 0 else ParseNat(s[..|s| - 1]) * 10 + DigitValue(s[|s| - 1])
  }

  /** Parsing the rendering of a number gives the number back. */
  lemma {:induction false} ParseNatToString(n: nat)
    ensures ParseNat(NatToString(n)) == n
    decreases n
  {
    var s := NatToString(n);
    if n < 10 {
      assert s[..|s| - 1] == [];
    } else {
      assert s[..|s| - 1] == NatToString(n / 10);
      ParseNatToString(n / 10);
    }
  }

  /** The rendering has no superfluous leading zero. */
  lemma {:induction false} NatToStringNoLeadingZero(n: nat)
    ensures |NatToString(n)| > 1 ==> NatToString(n)[0] != '0'
    ensures n < 10 <==> |NatToString(n)| == 1
    decreases n
  {
    if n >= 10 {
      NatToStringNoLeadingZero(n / 10);
      if n / 10 < 10 {
        assert NatToString(n / 10) == [DigitChar(n / 10)];
      }
    }
  }

  /** Different numbers have different renderings. */
  lemma NatToStringInjective(m: nat, n: nat)
    requires NatToString(m) == NatToString(n)
    ensures m == n
  {
    ParseNatToString(m);
    ParseNatToString(n);
  }

  /** The rendering of an integer is an optional '-' followed by digits. */
  lemma IntToStringShape(n: int)
    ensures |IntToString(n)| >= 1
    ensures IntToString(n)[0] == '-' || IsDigit(IntToString(n)[0])
    ensures forall i :: 1 <= i < |IntToString(n)| ==> IsDigit(IntToString(n)[i])
  {
  }

  /** Different integers have different renderings. */
  lemma IntToStringInjective(m: int, n: int)
    ensures IntToString(m) == IntToString(n) ==> m == n
  {
    var a, b := IntToString(m), IntToString(n);
    assert a[0] == '-' <==> m < 0;
    assert b[0] == '-' <==> n < 0;
    if a == b {
      if m < 0 {
        assert a[1..] == NatToString(-m) && b[1..] == NatToString(-n);
        NatToStringInjective(-m, -n);
      } else {
        NatToStringInjective(m, n);
      }
    }
  }

  /** `sub` occurs in `s` starting at position `i`. */
  predicate OccursAt(s: string, sub: string, i: nat) {
    i + |sub| <= |s| && s[i..i + |sub|] == sub
  }

  /** JavaScript's `s.includes(sub)`. */
  function Includes(s: string, sub: string): (b: bool)
    ensures b <==> exists i: nat :: OccursAt(s, sub, i)
    decreases |s|
  {
    if |sub| <= |s| && s[..|sub|] == sub then
      assert OccursAt(s, sub, 0);
      true
    else if |s| == 0 then
      false
    else
      var b := Includes(s[1..], sub);
      if b then
        var i: nat :| OccursAt(s[1..], sub, i);
        assert s[1..][i..i + |sub|] == s[i + 1..i + 1 + |sub|];
        assert OccursAt(s, sub, i + 1);
        b
      else
        assert forall i: nat :: !OccursAt(s, sub, i) by {
          forall i: nat ensures !OccursAt(s, sub, i) {
            if OccursAt(s, sub, i) {
              assert i != 0;
              assert s[1..][i - 1..i - 1 + |sub|] == s[i..i + |sub|];
              assert OccursAt(s[1..], sub, i - 1);
            }
          }
        }
        b
  }

  /** Every string includes the empty string. */
  lemma IncludesEmpty(s: string)
    ensures Includes(s, "")
  {
    assert OccursAt(s, "", 0);
  }

  /** A capital letter that `LowerChar` folds: A-Z and the Latin-1 capitals
      U+00C0..U+00DE other than the multiplication sign U+00D7. */
  predicate IsCapital(c: char) {
    'A' <= c <= 'Z' || ('\U{00C0}' <= c <= '\U{00DE}' && c != '\U{00D7}')
  }

  /** A capital becomes its small letter, 32 code points further on; every
      other character is kept. */
  function LowerChar(c: char): (r: char)
    ensures IsCapital(c) ==> r as int == c as int + 32 && !IsCapital(r)
    ensures !IsCapital(c) ==> r == c
  {
    if IsCapital(c) then (c as int + 32) as char else c
  }

  /** JavaScript's `toLowerCase`, restricted to the capitals of `IsCapital`. */
  function ToLower(s: string): (r: string)
    ensures |r| == |s|
    ensures forall i :: 0 <= i < |s| ==> r[i] == LowerChar(s[i])
  {
    seq(|s|, i requires 0 <= i < |s| => LowerChar(s[i]))
  }

  /** A lower-cased string has no capital left, so lower-casing twice changes nothing. */
  lemma ToLowerIdempotent(s: string)
    ensures ToLower(ToLower(s)) == ToLower(s)
    ensures forall i :: 0 <= i < |s| ==> !IsCapital(ToLower(s)[i])
  {
  }

  /** An accented capital is folded as well: "édith" is found in "Édith Piaf". */
  lemma AccentedCapitalFolds()
    ensures Includes(ToLower("\U{00C9}dith Piaf"), "\U{00E9}dith")
  {
    assert ToLower("\U{00C9}dith Piaf")[..5] == "\U{00E9}dith";
  }

  /** The length JavaScript reports for a string: UTF-16 code units, two for
      each character beyond U+FFFF. */
  function Utf16Length(s: string): (n: nat)
    ensures |s| <= n <= 2 * |s|
    ensures (forall i :: 0 <= i < |s| ==> s[i] as int < 0x1_0000) ==> n == |s|
    decreases |s|
  {
    if |s| == 0 then 0
    else
      assert forall i :: 1 <= i < |s| ==> s[i] == s[1..][i - 1];
      (if s[0] as int < 0x1_0000 then 1 else 2) + Utf16Length(s[1..])
  }

  /** `sub` is `s` with some elements dropped, the rest kept in order. */
  predicate IsSubsequence<T(==)>(sub: seq<T>, s: seq<T>)
    decreases |s|
  {
    if |sub| == 0 then true
    else if |s| == 0 then false
    else if sub[0] == s[0] then IsSubsequence(sub[1..], s[1..])
    else IsSubsequence(sub, s[1..])
  }

  /** The elements of a subsequence come from the original sequence. */
  lemma {:induction false} SubsequenceElements<T>(sub: seq<T>, s: seq<T>)
    requires IsSubsequence(sub, s)
    ensures forall x :: x in sub ==> x in s
    ensures |sub| <= |s|
    decreases |s|
  {
    if |sub| > 0 {
      if sub[0] == s[0] {
        SubsequenceElements(sub[1..], s[1..]);
        forall x | x in sub ensures x in s {
          if x != sub[0] { assert x in sub[1..]; }
        }
      } else {
        SubsequenceElements(sub, s[1..]);
      }
    }
  }

  /** Every sequence is a subsequence of itself. */
  lemma {:induction false} SubsequenceReflexive<T>(s: seq<T>)
    ensures IsSubsequence(s, s)
    decreases |s|
  {
    if |s| > 0 { SubsequenceReflexive(s[1..]); }
  }

  /** A subsequence of the tail is a subsequence of the whole. */
  lemma {:induction false} SubsequenceExtend<T>(sub: seq<T>, s: seq<T>)
    requires |s| > 0 && IsSubsequence(sub, s[1..])
    ensures IsSubsequence(sub, s)
    decreases |s|, |sub|
  {
    if |sub| > 0 && sub[0] == s[0] {
      SubsequenceTail(sub, s[1..]);
    }
  }

  /** Dropping the first element of a subsequence keeps it a subsequence. */
  lemma {:induction false} SubsequenceTail<T>(sub: seq<T>, s: seq<T>)
    requires |sub| > 0 && IsSubsequence(sub, s)
    ensures IsSubsequence(sub[1..], s)
    decreases |s|, |sub|
  {
    if sub[0] == s[0] {
      SubsequenceExtend(sub[1..], s);
    } else {
      SubsequenceTail(sub, s[1..]);
      SubsequenceExtend(sub[1..], s);
    }
  }
}
