/** Text handling the scripts rely on: Python's float() applied to a counter reply,
    str() of the integer sweep values, and the two str.replace calls used when the
    output records are written. */
module Text {
  import opened Basics

  predicate IsDigit(c: char) { '0' <= c <= '9' }

  predicate AllDigits(s: string) { forall i :: 0 <= i < |s| ==> IsDigit(s[i]) }

  /** Six of the ASCII characters that Python's float() strips from both ends of its
      argument (it also strips \x1c-\x1f and non-ASCII whitespace). */
  predicate IsSpace(c: char)
  {
    c == ' ' || c == '\t' || c == '\n' || c == '\r' || c == '\U{0b}' || c == '\U{0c}'
  }

  /** The number a string of decimal digits denotes. */
  function DigitsValue(s: string): nat
    requires AllDigits(s)
  {
    if |s| == 0 then 0
    else 10 * DigitsValue(s[..|s| - 1]) + (s[|s| - 1] as int - '0' as int)
  }

  function DigitChar(d: nat): (c: char)
    requires d < 10
    ensures IsDigit(c) && c as int - '0' as int == d
  {
    ('0' as int + d) as char
  }

  /** Python's str() of a non-negative int. */
  function NatToString(n: nat): (r: string)
    ensures |r| > 0 && AllDigits(r)
    ensures DigitsValue(r) == n
  {
    if n < 10 then [DigitChar(n)]
    else
      var r := NatToString(n / 10) + [DigitChar(n % 10)];
      assert r[..|r| - 1] == NatToString(n / 10);
      r
  }

  /** Python's str() of an int. */
  function IntToString(i: int): (r: string)
    ensures |r| > 0 && IsDigit(r[|r| - 1])
    ensures i < 0 <==> r[0] == '-'
    ensures r[0] == '-' || AllDigits(r)
    ensures forall k :: 0 < k < |r| ==> IsDigit(r[k])
  {
    if i < 0 then "-" + NatToString(-i) else NatToString(i)
  }

  /** `s.replace(from, to)` for single characters. */
  function ReplaceChar(s: string, from: char, to: char): (r: string)
    ensures |r| == |s|
    ensures forall i :: 0 <= i < |s| ==> r[i] == if s[i] == from then to else s[i]
  {
    if |s| == 0 then [] else [if s[0] == from then to else s[0]] + ReplaceChar(s[1..], from, to)
  }

  /** `s.replace(c, '')`: every occurrence of `c` removed, the other characters kept in order. */
  function RemoveChar(s: string, c: char): (r: string)
    ensures c !in r
    ensures multiset(r) == multiset(s)[c := 0]
    ensures c !in s ==> r == s
  {
    if |s| == 0 then []
    else
      var rest := RemoveChar(s[1..], c);
      assert s == [s[0]] + s[1..];
      RemoveCharStep(s[0], s[1..], rest, c);
      if s[0] == c then rest else [s[0]] + rest
  }

  /** One step of the removal, on multisets: a first character equal to `c` is dropped,
      any other is kept. */
  lemma RemoveCharStep(x: char, t: string, rest: string, c: char)
    requires multiset(rest) == multiset(t)[c := 0]
    ensures x == c ==> multiset(rest) == multiset([x] + t)[c := 0]
    ensures x != c ==> multiset([x] + rest) == multiset([x] + t)[c := 0]
  {
    assert multiset([x] + t) == multiset{x} + multiset(t);
    assert multiset([x] + rest) == multiset{x} + multiset(rest);
  }

  /** Removal works piece by piece: what is left of `s + t` is what is left of `s`
      followed by what is left of `t`, so the kept characters stay in order. */
  lemma {:induction false} RemoveCharAppend(s: string, t: string, c: char)
    ensures RemoveChar(s + t, c) == RemoveChar(s, c) + RemoveChar(t, c)
    decreases |s|
  {
    if |s| > 0 {
      assert (s + t)[1..] == s[1..] + t;
      RemoveCharAppend(s[1..], t, c);
    } else {
      assert s + t == t;
    }
  }

  /** A reply ending in one line end loses exactly that line end. */
  lemma {:induction false} RemoveLineEnd(u: string)
    requires '\n' !in u
    ensures RemoveChar(u + "\n", '\n') == u
  {
    RemoveCharAppend(u, "\n", '\n');
  }

  function TrimLeft(s: string): string
  {
    if |s| > 0 && IsSpace(s[0]) then TrimLeft(s[1..]) else s
  }

  function TrimRight(s: string): string
  {
    if |s| > 0 && IsSpace(s[|s| - 1]) then TrimRight(s[..|s| - 1]) else s
  }

  function Strip(s: string): string { TrimRight(TrimLeft(s)) }

  /** First index of `c` in `s`, or |s| when `c` does not occur. */
  function IndexOf(s: string, c: char): (k: nat)
    ensures k <= |s| && (k < |s| ==> s[k] == c)
    ensures forall i :: 0 <= i < k ==> s[i] != c
  {
    if |s| == 0 then 0 else if s[0] == c then 0 else 1 + IndexOf(s[1..], c)
  }

  /** First index of an exponent marker 'e' or 'E', or |s| when there is none. */
  function ExponentIndex(s: string): (k: nat)
    ensures k <= |s| && (k < |s| ==> s[k] == 'e' || s[k] == 'E')
    ensures forall i :: 0 <= i < k ==> s[i] != 'e' && s[i] != 'E'
  {
    if |s| == 0 then 0 else if s[0] == 'e' || s[0] == 'E' then 0 else 1 + ExponentIndex(s[1..])
  }

  function Pow10(k: nat): (r: real)
    ensures r >= 1.0
  {
    if k == 0 then 1.0 else 10.0 * Pow10(k - 1)
  }

  /** Digits with at most one decimal point and at least one digit: "12", "12.5", ".5", "12.". */
  function ParseMantissa(t: string): Option<real>
  {
    var d := IndexOf(t, '.');
    if d == |t| then
      if |t| > 0 && AllDigits(t) then Some(DigitsValue(t) as real) else None
    else
      var whole, frac := t[..d], t[d + 1..];
      if AllDigits(whole) && AllDigits(frac) && |whole| + |frac| > 0
      then Some(DigitsValue(whole) as real + DigitsValue(frac) as real / Pow10(|frac|))
      else None
  }

  /** An optionally signed, non-empty run of digits. */
  function ParseExponent(t: string): Option<int>
  {
    var digits := if |t| > 0 && (t[0] == '+' || t[0] == '-') then t[1..] else t;
    if |digits| > 0 && AllDigits(digits)
    then Some(if t[0] == '-' then -(DigitsValue(digits) as int) else DigitsValue(digits))
    else None
  }

  function ScaleByPow10(m: real, e: int): real
  {
    if e >= 0 then m * Pow10(e) else m / Pow10(-e)
  }

  function ParseUnsigned(t: string): Option<real>
  {
    var e := ExponentIndex(t);
    var mantissa := ParseMantissa(t[..e]);
    if e == |t| then mantissa
    else
      match (mantissa, ParseExponent(t[e + 1..]))
      case (Some(m), Some(k)) => Some(ScaleByPow10(m, k))
      case _ => None
  }

  function ParseSigned(t: string): Option<real>
  {
    if |t| > 0 && (t[0] == '+' || t[0] == '-') then
      match ParseUnsigned(t[1..])
      case Some(v) => Some(if t[0] == '-' then -v else v)
      case None => None
    else ParseUnsigned(t)
  }

  /** Python's float() on a string: surrounding whitespace is ignored, None stands for ValueError. */
  function ParseFloat(s: string): Option<real>
  {
    ParseSigned(Strip(s))
  }

  lemma {:induction false} TrimLeftAllSpace(s: string)
    requires forall i :: 0 <= i < |s| ==> IsSpace(s[i])
    ensures TrimLeft(s) == []
    decreases |s|
  {
    if |s| > 0 {
      TrimLeftAllSpace(s[1..]);
    }
  }

  /** An empty reply, or one holding only whitespace such as a bare line end, is not a number. */
  lemma BlankIsNotANumber(s: string)
    requires forall i :: 0 <= i < |s| ==> IsSpace(s[i])
    ensures ParseFloat(s) == None
  {
    TrimLeftAllSpace(s);
  }

  lemma {:induction false} TrimLeftSnoc(s: string, c: char)
    requires IsSpace(c)
    ensures TrimLeft(s + [c]) == if TrimLeft(s) == [] then [] else TrimLeft(s) + [c]
    decreases |s|
  {
    if |s| == 0 {
      assert TrimLeft([c]) == TrimLeft([c][1..]);
    } else if IsSpace(s[0]) {
      assert (s + [c])[1..] == s[1..] + [c];
      TrimLeftSnoc(s[1..], c);
    }
  }

  lemma StripSnocSpace(s: string, c: char)
    requires IsSpace(c)
    ensures Strip(s + [c]) == Strip(s)
  {
    TrimLeftSnoc(s, c);
    var u := TrimLeft(s);
    if u != [] {
      assert (u + [c])[..|u + [c]| - 1] == u;
    }
  }

  /** The line end the counter puts after every reply does not change the number it denotes. */
  lemma ParseIgnoresLineEnd(s: string)
    ensures ParseFloat(s + "\n") == ParseFloat(s)
  {
    StripSnocSpace(s, '\n');
  }

  lemma ParseUnsignedDigits(d: string)
    requires |d| > 0 && AllDigits(d)
    ensures ParseUnsigned(d) == Some(DigitsValue(d) as real)
  {
    assert forall i :: 0 <= i < |d| ==> d[i] != 'e' && d[i] != 'E' && d[i] != '.';
    assert d[..ExponentIndex(d)] == d;
  }

  /** Python's float() reads back what str() wrote for an int: the formatting and the
      parsing of integer values are inverse to each other. */
  lemma ParseIntToString(i: int)
    ensures ParseFloat(IntToString(i)) == Some(i as real)
  {
    var r := IntToString(i);
    assert !IsSpace(r[0]) && !IsSpace(r[|r| - 1]);
    assert TrimLeft(r) == r;
    assert Strip(r) == r;
    if i < 0 {
      var d := NatToString(-i);
      assert r[1..] == d;
      ParseUnsignedDigits(d);
    } else {
      ParseUnsignedDigits(r);
    }
  }
}
