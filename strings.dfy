/** Python string operations used by the core, on `string` (a sequence of characters).
    Case folding and whitespace are the ASCII part of Python's definitions. */
module Strings {

  /** `p` occurs in `s` starting at index `i`. */
  ghost predicate OccursAt(s: string, p: string, i: int)
  {
    0 <= i && i + |p| <= |s| && s[i..i + |p|] == p
  }

  /** Python's `p in s` for two strings: `p` is a substring of `s`. */
  predicate Contains(s: string, p: string)
    decreases |s|
  {
    p <= s || (s != [] && Contains(s[1..], p))
  }

  lemma {:induction false} ContainsIffOccurs(s: string, p: string)
    ensures Contains(s, p) <==> exists i :: OccursAt(s, p, i)
    decreases |s|
  {
    if p <= s {
      assert s[0..|p|] == p;
      assert OccursAt(s, p, 0);
    } else if s != [] {
      ContainsIffOccurs(s[1..], p);
      if Contains(s[1..], p) {
        var i :| OccursAt(s[1..], p, i);
        assert s[i + 1..i + 1 + |p|] == s[1..][i..i + |p|];
        assert OccursAt(s, p, i + 1);
      }
      forall i | OccursAt(s, p, i)
        ensures OccursAt(s[1..], p, i - 1)
      {
        if i > 0 {
          assert s[1..][i - 1..i - 1 + |p|] == s[i..i + |p|];
        }
      }
    }
  }

  lemma {:induction false} ContainsLeft(a: string, b: string, p: string)
    requires Contains(a, p)
    ensures Contains(a + b, p)
    decreases |a|
  {
    if p <= a {
      assert p <= a + b;
    } else {
      assert (a + b)[1..] == a[1..] + b;
      ContainsLeft(a[1..], b, p);
    }
  }

  lemma {:induction false} ContainsRight(a: string, b: string, p: string)
    requires Contains(b, p)
    ensures Contains(a + b, p)
    decreases |a|
  {
    if a == [] {
      assert a + b == b;
    } else {
      assert (a + b)[1..] == a[1..] + b;
      ContainsRight(a[1..], b, p);
    }
  }

  /** Every string contains itself, so `a + p + b` contains `p`. */
  lemma ContainsMiddle(a: string, p: string, b: string)
    ensures Contains(a + p + b, p)
  {
    assert p <= p + b;
    ContainsRight(a, p + b, p);
    assert a + p + b == a + (p + b);
  }

  /** `s[:n]` in Python, for a non-negative `n`. */
  function Take(s: string, n: nat): (r: string)
    ensures |r| == if n < |s| then n else |s|
    ensures r <= s
  {
    if n < |s| then s[..n] else s
  }

  /** Python's `str.isspace()` on one character, restricted to ASCII. */
  predicate IsSpace(c: char)
  {
    c == ' ' || c == '\t' || c == '\n' || c == '\r' || c == '\U{0B}' || c == '\U{0C}'
    || c == '\U{1C}' || c == '\U{1D}' || c == '\U{1E}' || c == '\U{1F}'
  }

  function LStrip(s: string): (r: string)
    ensures |r| <= |s| && r == s[|s| - |r|..]
    ensures r != [] ==> !IsSpace(r[0])
    ensures forall i :: 0 <= i < |s| - |r| ==> IsSpace(s[i])
  {
    if s != [] && IsSpace(s[0]) then LStrip(s[1..]) else s
  }

  function RStrip(s: string): (r: string)
    ensures |r| <= |s| && r == s[..|r|]
    ensures r != [] ==> !IsSpace(r[|r| - 1])
    ensures forall i :: |r| <= i < |s| ==> IsSpace(s[i])
  {
    if s != [] && IsSpace(s[|s| - 1]) then RStrip(s[..|s| - 1]) else s
  }

  /** Python's `s.strip()`: leading and trailing whitespace removed. */
  function Strip(s: string): string
  {
    RStrip(LStrip(s))
  }

  function LowerChar(c: char): char
  {
    if 'A' <= c <= 'Z' then (c as int + 32) as char else c
  }

  /** Python's `s.lower()`, ASCII letters only. */
  function Lower(s: string): (r: string)
    ensures |r| == |s|
    ensures forall i :: 0 <= i < |s| ==> r[i] == LowerChar(s[i])
  {
    if s == [] then [] else [LowerChar(s[0])] + Lower(s[1..])
  }

  lemma {:induction false} LowerConcat(a: string, b: string)
    ensures Lower(a + b) == Lower(a) + Lower(b)
    decreases |a|
  {
    if a == [] {
      assert a + b == b;
    } else {
      assert (a + b)[0] == a[0];
      assert (a + b)[1..] == a[1..] + b;
      LowerConcat(a[1..], b);
    }
  }

  predicate NoUpper(s: string)
  {
    s == [] || (!('A' <= s[0] <= 'Z') && NoUpper(s[1..]))
  }

  /** Text without upper-case ASCII letters is its own lower-case form. */
  lemma {:induction false} LowerOfLower(s: string)
    requires NoUpper(s)
    ensures Lower(s) == s
  {
    if s != [] {
      LowerOfLower(s[1..]);
    }
  }

  /** Lower-casing keeps a lower-case infix in place. */
  lemma LowerKeepsInfix(a: string, p: string, b: string)
    requires Lower(p) == p
    ensures Contains(Lower(a + p + b), p)
  {
    LowerConcat(a + p, b);
    LowerConcat(a, p);
    ContainsMiddle(Lower(a), p, Lower(b));
  }

  /** `sep.join(parts)`. */
  function Join(parts: seq<string>, sep: string): string
  {
    if parts == [] then ""
    else if |parts| == 1 then parts[0]
    else parts[0] + sep + Join(parts[1..], sep)
  }

  /** Python's `s.split(c)` for a one-character separator: always at least one piece. */
  function Split(s: string, c: char): (r: seq<string>)
    ensures |r| >= 1
  {
    if s == [] then [""]
    else
      var rest := Split(s[1..], c);
      if s[0] == c then [""] + rest else [[s[0]] + rest[0]] + rest[1..]
  }

  /** Splitting on `c` and joining the pieces with `c` gives the string back. */
  lemma {:induction false} SplitJoin(s: string, c: char)
    ensures Join(Split(s, c), [c]) == s
    decreases |s|
  {
    if s != [] {
      SplitJoin(s[1..], c);
      if s[0] == c {
        JoinAfterSeparator(s, c);
      } else {
        JoinAfterOther(s, c);
      }
    }
  }

  lemma JoinAfterSeparator(s: string, c: char)
    requires s != [] && s[0] == c && Join(Split(s[1..], c), [c]) == s[1..]
    ensures Join(Split(s, c), [c]) == s
  {
    var rest := Split(s[1..], c);
    var pieces := [""] + rest;
    assert Split(s, c) == pieces;
    assert pieces[0] == "" && pieces[1..] == rest;
    assert Join(pieces, [c]) == "" + [c] + Join(rest, [c]);
    assert s == [c] + s[1..];
  }

  lemma JoinAfterOther(s: string, c: char)
    requires s != [] && s[0] != c && Join(Split(s[1..], c), [c]) == s[1..]
    ensures Join(Split(s, c), [c]) == s
  {
    var rest := Split(s[1..], c);
    assert Split(s, c) == [[s[0]] + rest[0]] + rest[1..];
    JoinExtendFirst(s[0], rest, [c]);
    assert s == [s[0]] + s[1..];
  }

  /** Putting a character in front of the first piece puts it in front of the joined text. */
  lemma JoinExtendFirst(ch: char, pieces: seq<string>, sep: string)
    requires pieces != []
    ensures Join([[ch] + pieces[0]] + pieces[1..], sep) == [ch] + Join(pieces, sep)
  {
    var extended := [[ch] + pieces[0]] + pieces[1..];
    if |pieces| == 1 {
      assert extended == [[ch] + pieces[0]];
    } else {
      var tail := Join(pieces[1..], sep);
      assert extended[1..] == pieces[1..];
      assert Join(extended, sep) == [ch] + pieces[0] + sep + tail;
      assert Join(pieces, sep) == pieces[0] + sep + tail;
    }
  }

  /** No piece of `s.split(c)` contains `c`. */
  lemma {:induction false} SplitPiecesLackSeparator(s: string, c: char)
    ensures forall k :: 0 <= k < |Split(s, c)| ==> c !in Split(s, c)[k]
    decreases |s|
  {
    if s != [] {
      var rest := Split(s[1..], c);
      SplitPiecesLackSeparator(s[1..], c);
      if s[0] == c {
        assert Split(s, c) == [""] + rest;
      } else {
        var pieces := [[s[0]] + rest[0]] + rest[1..];
        assert Split(s, c) == pieces;
        assert c !in rest[0];
        assert forall k :: 1 <= k < |pieces| ==> pieces[k] == rest[k];
      }
    }
  }

  /** Index of the first occurrence of `c` in `s`. */
  function IndexOf(s: string, c: char): (i: nat)
    requires c in s
    ensures i < |s| && s[i] == c && c !in s[..i]
  {
    if s[0] == c then 0 else 1 + IndexOf(s[1..], c)
  }

  /** Python's `s.split(c, 1)`: the text before the first `c` and the text after it,
      or `[s]` when `c` does not occur. */
  function SplitOnce(s: string, c: char): (r: seq<string>)
    ensures c in s ==> |r| == 2 && c !in r[0] && s == r[0] + [c] + r[1]
    ensures c !in s ==> r == [s]
  {
    if c in s then
      var i := IndexOf(s, c);
      assert s == s[..i] + [c] + s[i + 1..];
      [s[..i], s[i + 1..]]
    else [s]
  }

  /** Python's `s.replace(pat, "")`: every non-overlapping occurrence of `pat`,
      scanning left to right, removed. */
  function RemoveAll(s: string, pat: string): (r: string)
    requires pat != []
    ensures |r| <= |s|
    ensures !Contains(s, pat) ==> r == s
    decreases |s|
  {
    if s == [] then []
    else if pat <= s then RemoveAll(s[|pat|..], pat)
    else
      var r := [s[0]] + RemoveAll(s[1..], pat);
      assert !Contains(s, pat) ==> !Contains(s[1..], pat);
      assert !Contains(s, pat) ==> s == [s[0]] + s[1..];
      r
  }

  predicate IsNotSpace(c: char) { !IsSpace(c) }

  /** Length of the longest prefix of `s` without whitespace. */
  function WordLength(s: string): (n: nat)
    ensures n <= |s|
    ensures forall i :: 0 <= i < n ==> !IsSpace(s[i])
    ensures n < |s| ==> IsSpace(s[n])
  {
    if s == [] || IsSpace(s[0]) then 0 else 1 + WordLength(s[1..])
  }

  /** Python's `s.split()` with no argument: the maximal runs of non-whitespace. */
  function Fields(s: string): seq<string>
    decreases |s|
  {
    if s == [] then []
    else if IsSpace(s[0]) then Fields(s[1..])
    else
      var n := WordLength(s);
      [s[..n]] + Fields(s[n..])
  }

  /** The whitespace-free prefix is determined by where the first whitespace is. */
  lemma WordLengthAt(s: string, m: nat)
    requires m <= |s| && forall i :: 0 <= i < m ==> !IsSpace(s[i])
    requires m < |s| ==> IsSpace(s[m])
    ensures WordLength(s) == m
  {
  }

  /** A trailing whitespace character does not change `split()`. */
  lemma {:induction false} FieldsDropLast(s: string)
    requires s != [] && IsSpace(s[|s| - 1])
    ensures Fields(s[..|s| - 1]) == Fields(s)
    decreases |s|
  {
    if IsSpace(s[0]) {
      if |s| > 1 {
        FieldsDropLast(s[1..]);
      }
      FieldsDropLastAfterSpace(s);
    } else {
      var n := WordLength(s);
      FieldsDropLast(s[n..]);
      FieldsDropLastAfterWord(s);
    }
  }

  lemma FieldsDropLastAfterSpace(s: string)
    requires s != [] && IsSpace(s[|s| - 1]) && IsSpace(s[0])
    requires |s| > 1 ==> Fields(s[1..][..|s| - 2]) == Fields(s[1..])
    ensures Fields(s[..|s| - 1]) == Fields(s)
  {
    var t := s[..|s| - 1];
    var rest := s[1..];
    assert Fields(s) == Fields(rest);
    if |s| == 1 {
      assert t == [] && rest == [];
    } else {
      assert t[0] == s[0];
      assert Fields(t) == Fields(t[1..]);
      assert t[1..] == rest[..|rest| - 1];
    }
  }

  lemma FieldsDropLastAfterWord(s: string)
    requires s != [] && IsSpace(s[|s| - 1]) && !IsSpace(s[0])
    requires var rest := s[WordLength(s)..]; rest != [] && Fields(rest[..|rest| - 1]) == Fields(rest)
    ensures Fields(s[..|s| - 1]) == Fields(s)
  {
    var t := s[..|s| - 1];
    var n := WordLength(s);
    var rest := s[n..];
    assert Fields(s) == [s[..n]] + Fields(rest);
    WordLengthAt(t, n);
    assert t[0] == s[0];
    assert Fields(t) == [t[..n]] + Fields(t[n..]);
    assert t[..n] == s[..n];
    assert t[n..] == rest[..|rest| - 1];
  }

  /** `s.strip().split()` and `s.split()` give the same words. */
  lemma {:induction false} FieldsStrip(s: string)
    ensures Fields(Strip(s)) == Fields(s)
  {
    FieldsLStrip(s);
    FieldsRStrip(LStrip(s));
  }

  lemma {:induction false} FieldsLStrip(s: string)
    ensures Fields(LStrip(s)) == Fields(s)
    decreases |s|
  {
    if s != [] && IsSpace(s[0]) {
      FieldsLStrip(s[1..]);
    }
  }

  lemma {:induction false} FieldsRStrip(s: string)
    ensures Fields(RStrip(s)) == Fields(s)
    decreases |s|
  {
    if s != [] && IsSpace(s[|s| - 1]) {
      FieldsRStrip(s[..|s| - 1]);
      FieldsDropLast(s);
    }
  }

  function DigitChar(d: nat): char
    requires d < 10
  {
    "0123456789"[d]
  }

  /** Decimal notation of a natural number, as Python's `str(n)`. */
  function NatToString(n: nat): (r: string)
    ensures r != []
    ensures forall i :: 0 <= i < |r| ==> '0' <= r[i] <= '9'
  {
    if n < 10 then [DigitChar(n)] else NatToString(n / 10) + [DigitChar(n % 10)]
  }

  /** Decimal notation of an integer, as Python's `str(n)`. */
  function IntToString(n: int): string
  {
    if n < 0 then "-" + NatToString(-n) else NatToString(n)
  }

  predicate IsDigit(c: char)
  {
    '0' <= c <= '9'
  }

  function DigitValue(c: char): nat
    requires IsDigit(c)
  {
    c as int - '0' as int
  }

  /** The value of a string of decimal digits, most significant first. */
  function DigitsValue(s: string): nat
    requires forall i :: 0 <= i < |s| ==> IsDigit(s[i])
  {
    if s == [] then 0 else 10 * DigitsValue(s[..|s| - 1]) + DigitValue(s[|s| - 1])
  }

  lemma {:induction false} DigitsOfNat(n: nat)
    ensures forall i :: 0 <= i < |NatToString(n)| ==> IsDigit(NatToString(n)[i])
    ensures DigitsValue(NatToString(n)) == n
  {
    if n >= 10 {
      DigitsOfNat(n / 10);
      var s := NatToString(n);
      assert s == NatToString(n / 10) + [DigitChar(n % 10)];
      assert s[..|s| - 1] == NatToString(n / 10);
    }
  }

  lemma StripNoSpace(s: string)
    requires forall i :: 0 <= i < |s| ==> !IsSpace(s[i])
    ensures Strip(s) == s
  {
    if s != [] {
      assert !IsSpace(s[0]);
      assert LStrip(s) == s;
      assert !IsSpace(s[|s| - 1]);
      assert RStrip(s) == s;
    }
  }
}
