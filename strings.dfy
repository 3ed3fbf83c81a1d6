/** Text helpers the source gets from JavaScript itself: how a whole number is written
    into a template literal, `replace(/[^0-9]/g, '')` and lines joined by newlines; plus a
    first-occurrence search for reading a deep link back. */
module Strings {
  import opened Types
  import Seqs

  predicate IsDigit(c: char) {
    '0' <= c <= '9'
  }

  predicate AllDigits(s: string) {
    forall i :: 0 <= i < |s| ==> IsDigit(s[i])
  }

  function DigitValue(c: char): (d: nat)
    requires IsDigit(c)
    ensures d < 10
  {
    c as int - '0' as int
  }

  function DigitChar(d: nat): (c: char)
    requires d < 10
    ensures IsDigit(c) && DigitValue(c) == d
  {
    ('0' as int + d) as char
  }

  /** The decimal numeral of `n`: digits only, most significant first, and a leading
      '0' only for zero itself. */
  function ShowNat(n: nat): (s: string)
    ensures s != [] && AllDigits(s)
    ensures s[0] == '0' <==> n == 0
    decreases n
  {
    if n < 10 then [DigitChar(n)] else ShowNat(n / 10) + [DigitChar(n % 10)]
  }

  /** How `${n}` renders a whole number: a minus sign for negatives, then the numeral. */
  function ShowInt(n: int): (s: string)
    ensures s != []
    ensures s[0] == '-' <==> n < 0
  {
    if n < 0 then "-" + ShowNat(-n) else ShowNat(n)
  }

  /** The number a string of digits denotes. */
  function DigitsValue(s: string): nat
    requires AllDigits(s)
  {
    if s == [] then 0 else DigitsValue(s[..|s| - 1]) * 10 + DigitValue(s[|s| - 1])
  }

  /** Reads an integer written as an optional minus sign followed by digits. */
  function ParseInt(s: string): Option<int> {
    if |s| > 1 && s[0] == '-' && AllDigits(s[1..]) then Some(-(DigitsValue(s[1..]) as int))
    else if s != [] && AllDigits(s) then Some(DigitsValue(s))
    else None
  }

  lemma {:induction false} DigitsValueOfShowNat(n: nat)
    ensures DigitsValue(ShowNat(n)) == n
    decreases n
  {
    if n >= 10 {
      var s := ShowNat(n);
      assert s[..|s| - 1] == ShowNat(n / 10);
      DigitsValueOfShowNat(n / 10);
    }
  }

  /** Every rendered number reads back as itself: nothing is lost in the rendering. */
  lemma ParseShowInt(n: int)
    ensures ParseInt(ShowInt(n)) == Some(n)
  {
    var s := ShowInt(n);
    if n < 0 {
      assert s == "-" + ShowNat(-n) && s[1..] == ShowNat(-n);
      DigitsValueOfShowNat(-n);
      assert |s| > 1 && s[0] == '-' && AllDigits(s[1..]);
    } else {
      assert s == ShowNat(n);
      DigitsValueOfShowNat(n);
    }
  }

  /** Distinct numbers are rendered differently. */
  lemma ShowIntInjective(a: int, b: int)
    requires ShowInt(a) == ShowInt(b)
    ensures a == b
  {
    ParseShowInt(a);
    ParseShowInt(b);
  }

  /** `s.replace(/[^0-9]/g, '')`: the ASCII digits of `s`, in order. */
  function DigitsOnly(s: string): (r: string)
    ensures AllDigits(r) && |r| <= |s|
  {
    Seqs.Filter(s, IsDigit)
  }

  /** Stripping non-digits keeps exactly the digits: a string is left alone iff it holds
      only digits, stripping works piecewise, and the result keeps the original order. */
  lemma DigitsOnlyCharacterised(s: string, t: string)
    ensures DigitsOnly(s) == s <==> AllDigits(s)
    ensures DigitsOnly(s + t) == DigitsOnly(s) + DigitsOnly(t)
    ensures Seqs.IsSubsequence(DigitsOnly(s), s)
  {
    Seqs.FilterIdentity(s, IsDigit);
    Seqs.FilterConcat(s, t, IsDigit);
    Seqs.FilterIsSubsequence(s, IsDigit);
  }

  /** Stripping non-digits a second time changes nothing. */
  lemma DigitsOnlyIdempotent(s: string)
    ensures DigitsOnly(DigitsOnly(s)) == DigitsOnly(s)
  {
    Seqs.FilterIdempotent(s, IsDigit);
  }

  /** The position of the first `c` in `s`, if any; used to split a deep link. */
  function FirstIndex(s: string, c: char): (r: Option<nat>)
    ensures r.Some? ==> r.value < |s| && s[r.value] == c
    ensures r.Some? ==> forall j :: 0 <= j < r.value ==> s[j] != c
    ensures r.None? <==> c !in s
  {
    if s == [] then None
    else if s[0] == c then Some(0)
    else match FirstIndex(s[1..], c)
      case None => None
      case Some(i) => Some(i + 1)
  }

  /** The lines of `lines`, separated by single newline characters. */
  function JoinLines(lines: seq<string>): string {
    if |lines| == 0 then ""
    else if |lines| == 1 then lines[0]
    else lines[0] + "\n" + JoinLines(lines[1..])
  }

  lemma {:induction false} JoinLinesAppend(a: seq<string>, b: seq<string>)
    requires a != [] && b != []
    ensures JoinLines(a + b) == JoinLines(a) + "\n" + JoinLines(b)
    decreases |a|
  {
    if |a| == 1 {
      assert (a + b)[1..] == b;
    } else {
      assert (a + b)[1..] == a[1..] + b;
      JoinLinesAppend(a[1..], b);
    }
  }

  /** Every inner line of a joined text stands on a line of its own, right after the
      text of the lines before it. */
  lemma JoinedInnerLine(lines: seq<string>, k: nat)
    requires 0 < k < |lines| - 1
    ensures var text, at := JoinLines(lines), |JoinLines(lines[..k])|;
      at + |lines[k]| + 2 <= |text| && text[at..at + |lines[k]| + 2] == "\n" + lines[k] + "\n"
  {
    var pre, post := lines[..k], lines[k + 1..];
    assert lines == pre + ([lines[k]] + post);
    JoinLinesAppend([lines[k]], post);
    JoinLinesAppend(pre, [lines[k]] + post);
    var at := |JoinLines(pre)|;
    var text := JoinLines(pre) + ("\n" + (lines[k] + "\n" + JoinLines(post)));
    assert text[at..at + |lines[k]| + 2] == "\n" + lines[k] + "\n";
  }
}
