/** String helpers: brace scanning and decimal rendering of integers. */
module Text {
  import opened Wrappers

  /** No closing brace anywhere in s. */
  predicate NoClose(s: string)
  {
    forall i :: 0 <= i < |s| ==> s[i] != '}'
  }

  /** Neither kind of brace anywhere in s. */
  predicate NoBraces(s: string)
  {
    forall i :: 0 <= i < |s| ==> s[i] != '{' && s[i] != '}'
  }

  predicate EndsWithSlash(s: string)
  {
    |s| > 0 && s[|s| - 1] == '/'
  }

  /** The position of the first '}' in s at or after k. */
  function NextClose(s: string, k: nat): (r: Option<nat>)
    requires k <= |s|
    ensures r.Some? ==> k <= r.value < |s| && s[r.value] == '}' && NoClose(s[k..r.value])
    ensures r.None? ==> NoClose(s[k..])
    decreases |s| - k
  {
    if k == |s| then None
    else if s[k] == '}' then Some(k)
    else
      var r := NextClose(s, k + 1);
      assert r.Some? ==> s[k..r.value] == [s[k]] + s[k + 1..r.value];
      assert r.None? ==> s[k..] == [s[k]] + s[k + 1..];
      r
  }

  /** NextClose is determined by where the first '}' is. */
  lemma {:induction false} NextCloseAt(s: string, k: nat, j: nat)
    requires k <= j < |s| && s[j] == '}' && NoClose(s[k..j])
    ensures NextClose(s, k) == Some(j)
    decreases j - k
  {
    if k < j {
      assert s[k] == s[k..j][0];
      assert NoClose(s[k + 1..j]) by {
        forall i | k + 1 <= i < j ensures s[i] != '}' {
          assert s[i] == s[k..j][i - k];
        }
      }
      NextCloseAt(s, k + 1, j);
    }
  }

  function DigitChar(d: nat): (c: char)
    requires d < 10
    ensures '0' <= c <= '9'
  {
    "0123456789"[d]
  }

  function DigitValue(c: char): nat
  {
    if '0' <= c <= '9' then (c as int - '0' as int) as nat else 0
  }

  /** Python's str() of a non-negative int: its decimal digits, most significant first. */
  function NatToString(n: nat): (r: string)
    ensures Canonical(r)
    ensures r[0] == '0' ==> n == 0
  {
    if n < 10 then
      DigitRoundTrip(n);
      [DigitChar(n)]
    else NatToString(n / 10) + [DigitChar(n % 10)]
  }

  /** The form str() gives a non-negative int: decimal digits, with no leading zero except in "0". */
  predicate Canonical(s: string)
  {
    && |s| > 0
    && (forall i :: 0 <= i < |s| ==> '0' <= s[i] <= '9')
    && (s[0] == '0' ==> |s| == 1)
  }

  /** Python's str() of an int. */
  function IntToString(n: int): (r: string)
    ensures |r| > 0
    ensures n >= 0 ==> r == NatToString(n)
    ensures n < 0 ==> r == "-" + NatToString(-n)
  {
    if n < 0 then "-" + NatToString(-n) else NatToString(n)
  }

  /** str() of a non-negative int is its canonical decimal form. */
  lemma NonNegativeIntToString(n: int)
    requires n >= 0
    ensures Canonical(IntToString(n)) && DecimalValue(IntToString(n)) == n
  {
    DecimalRoundTrip(n);
  }

  /** str() of a negative int is '-' followed by the canonical decimal form of its magnitude. */
  lemma NegativeIntToString(n: int)
    requires n < 0
    ensures IntToString(n)[0] == '-' && Canonical(IntToString(n)[1..]) && DecimalValue(IntToString(n)[1..]) == -n
  {
    DecimalRoundTrip(-n);
    SignedForm(NatToString(-n), -n);
  }

  lemma SignedForm(d: string, m: nat)
    requires Canonical(d) && DecimalValue(d) == m
    ensures ("-" + d)[0] == '-' && Canonical(("-" + d)[1..]) && DecimalValue(("-" + d)[1..]) == m
  {
    assert ("-" + d)[1..] == d;
  }

  /** The number a string of decimal digits denotes (the reading side of NatToString). */
  function DecimalValue(s: string): nat
  {
    if s == [] then 0 else 10 * DecimalValue(s[..|s| - 1]) + DigitValue(s[|s| - 1])
  }

  lemma DigitRoundTrip(d: nat)
    requires d < 10
    ensures DigitValue(DigitChar(d)) == d
  {
    assert "0123456789"[0] == '0' && "0123456789"[1] == '1' && "0123456789"[2] == '2';
    assert "0123456789"[3] == '3' && "0123456789"[4] == '4' && "0123456789"[5] == '5';
    assert "0123456789"[6] == '6' && "0123456789"[7] == '7' && "0123456789"[8] == '8';
    assert "0123456789"[9] == '9';
  }

  /** Reading back the decimal rendering of n gives n. */
  lemma {:induction false} DecimalRoundTrip(n: nat)
    ensures DecimalValue(NatToString(n)) == n
  {
    var s := NatToString(n);
    if n < 10 {
      DigitRoundTrip(n);
      assert s[..|s| - 1] == [];
    } else {
      DecimalRoundTrip(n / 10);
      DigitRoundTrip(n % 10);
      assert s[..|s| - 1] == NatToString(n / 10);
    }
  }

  lemma DigitCharOfValue(c: char)
    requires '0' <= c <= '9'
    ensures DigitValue(c) < 10 && DigitChar(DigitValue(c)) == c
  {
    assert "0123456789"[0] == '0' && "0123456789"[1] == '1' && "0123456789"[2] == '2';
    assert "0123456789"[3] == '3' && "0123456789"[4] == '4' && "0123456789"[5] == '5';
    assert "0123456789"[6] == '6' && "0123456789"[7] == '7' && "0123456789"[8] == '8';
    assert "0123456789"[9] == '9';
  }

  /** Digits that do not start with '0' denote a positive number. */
  lemma {:induction false} LeadingDigitPositive(s: string)
    requires |s| > 0 && s[0] != '0' && forall i :: 0 <= i < |s| ==> '0' <= s[i] <= '9'
    ensures DecimalValue(s) > 0
    decreases |s|
  {
    if |s| > 1 {
      LeadingDigitPositive(s[..|s| - 1]);
    }
  }

  /** The canonical decimal form is unique: it is the rendering of the number it denotes. */
  lemma {:induction false} CanonicalUnique(s: string)
    requires Canonical(s)
    ensures NatToString(DecimalValue(s)) == s
    decreases |s|
  {
    var p := s[..|s| - 1];
    var c := s[|s| - 1];
    DigitCharOfValue(c);
    if |s| == 1 {
      assert p == [];
      assert s == [c];
    } else {
      assert Canonical(p) by {
        assert p[0] == s[0];
        forall i | 0 <= i < |p| ensures '0' <= p[i] <= '9' {
          assert p[i] == s[i];
        }
      }
      LeadingDigitPositive(p);
      CanonicalUnique(p);
      var v := DecimalValue(s);
      assert v == 10 * DecimalValue(p) + DigitValue(c);
      assert v >= 10 && v / 10 == DecimalValue(p) && v % 10 == DigitValue(c);
      assert s == p + [c];
    }
  }
}
