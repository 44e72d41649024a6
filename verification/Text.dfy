/**
 * String helpers the advertisement workflow relies on: Java's
 * `String.contains` (a case-sensitive substring test) and the
 * `String.format("A%03d", n)` identifier format.
 */
module Text {

  /** `sub` occurs in `s` starting at index `i`. */
  ghost predicate OccursAt(s: string, sub: string, i: int)
  {
    0 <= i && i + |sub| <= |s| && s[i..i + |sub|] == sub
  }

  /** Java's `s.contains(sub)`: the empty string is contained in every string. */
  predicate Contains(s: string, sub: string)
    decreases |s|
  {
    (|sub| <= |s| && s[..|sub|] == sub) || (|s| > 0 && Contains(s[1..], sub))
  }

  /** `Contains` holds exactly when `sub` occurs somewhere in `s`. */
  lemma ContainsIff(s: string, sub: string)
    ensures Contains(s, sub) <==> exists i :: OccursAt(s, sub, i)
  {
    if i :| OccursAt(s, sub, i) {
      OccursContains(s, sub, i);
    }
    if Contains(s, sub) {
      var i := ContainsAt(s, sub);
    }
  }

  /** Where `Contains` finds `sub`: an index at which it occurs. */
  lemma {:induction false} ContainsAt(s: string, sub: string) returns (i: nat)
    requires Contains(s, sub)
    ensures OccursAt(s, sub, i)
    decreases |s|
  {
    if |sub| <= |s| && s[..|sub|] == sub {
      i := 0;
    } else {
      var j := ContainsAt(s[1..], sub);
      assert s[1..][j..j + |sub|] == s[j + 1..j + 1 + |sub|];
      i := j + 1;
    }
  }

  /** An occurrence at any index is found by `Contains`. */
  lemma {:induction false} OccursContains(s: string, sub: string, i: nat)
    requires OccursAt(s, sub, i)
    ensures Contains(s, sub)
    decreases i
  {
    if i > 0 {
      assert s[1..][i - 1..i - 1 + |sub|] == s[i..i + |sub|];
      OccursContains(s[1..], sub, i - 1);
    }
  }

  predicate IsDigit(c: char)
  {
    '0' <= c <= '9'
  }

  predicate AllDigits(s: string)
  {
    forall i :: 0 <= i < |s| ==> IsDigit(s[i])
  }

  function DigitChar(d: nat): (c: char)
    requires d < 10
    ensures IsDigit(c) && c as int - '0' as int == d
  {
    "0123456789"[d]
  }

  /** Decimal digits of `n`, most significant first, without leading zeros. */
  function Digits(n: nat): (s: string)
    ensures 1 <= |s|
    decreases n
  {
    if n < 10 then [DigitChar(n)] else Digits(n / 10) + [DigitChar(n % 10)]
  }

  /** One digit below 10, at most two below 100, at most three below 1000. */
  lemma {:induction false} DigitsLength(n: nat)
    ensures n < 10 <==> |Digits(n)| == 1
    ensures n < 100 <==> |Digits(n)| <= 2
    ensures n < 1000 <==> |Digits(n)| <= 3
    decreases n
  {
    if n >= 10 {
      DigitsLength(n / 10);
    }
  }

  lemma {:induction false} DigitsAreDigits(n: nat)
    ensures AllDigits(Digits(n))
    decreases n
  {
    if n >= 10 {
      DigitsAreDigits(n / 10);
    }
  }

  /** The number a string of decimal digits denotes (leading zeros allowed). */
  function Value(s: string): nat
    requires AllDigits(s)
  {
    if s == [] then 0 else 10 * Value(s[..|s| - 1]) + (s[|s| - 1] as int - '0' as int)
  }

  /** Left-pads a string of digits with '0' to three characters, as `%03d` does. */
  function Pad3(s: string): (r: string)
    ensures |r| == if |s| >= 3 then |s| else 3
  {
    if |s| >= 3 then s else if |s| == 2 then "0" + s else if |s| == 1 then "00" + s else "000"
  }

  /** `String.format("A%03d", n)`: at least three digits, more once `n` reaches 1000. */
  function FormatId(n: nat): string
  {
    "A" + Pad3(Digits(n))
  }

  /** An identifier is 'A' and at least three more characters; exactly four characters in all below 1000. */
  lemma FormatIdShape(n: nat)
    ensures |FormatId(n)| >= 4 && FormatId(n)[0] == 'A'
    ensures n < 1000 <==> |FormatId(n)| == 4
  {
    DigitsLength(n);
  }

  /** A leading '0' changes neither the digit shape nor the value. */
  lemma {:induction false} ValueOfZeroPrefix(s: string)
    requires AllDigits(s)
    ensures AllDigits("0" + s) && Value("0" + s) == Value(s)
    decreases |s|
  {
    var t := "0" + s;
    assert AllDigits(t) by {
      forall i | 0 <= i < |t| ensures IsDigit(t[i]) {
        if i > 0 {
          assert t[i] == s[i - 1];
        }
      }
    }
    if s != [] {
      assert t[..|t| - 1] == "0" + s[..|s| - 1];
      ValueOfZeroPrefix(s[..|s| - 1]);
    }
  }

  /** Padding keeps the digit shape and the value. */
  lemma ValueOfPad3(s: string)
    requires 1 <= |s| && AllDigits(s)
    ensures AllDigits(Pad3(s)) && Value(Pad3(s)) == Value(s)
  {
    if |s| < 3 {
      ValueOfZeroPrefix(s);
      if |s| == 1 {
        ValueOfZeroPrefix("0" + s);
        assert "00" + s == "0" + ("0" + s);
      }
    }
  }

  /** After the leading 'A' a formatted identifier holds only decimal digits. */
  lemma FormatIdDigits(n: nat)
    ensures AllDigits(FormatId(n)[1..])
  {
    DigitsAreDigits(n);
    ValueOfPad3(Digits(n));
    assert FormatId(n)[1..] == Pad3(Digits(n));
  }

  /** The sequence number carried by an identifier in the `FormatId` shape. */
  function IdNumber(id: string): nat
    requires |id| >= 1 && AllDigits(id[1..])
  {
    Value(id[1..])
  }

  lemma {:induction false} ValueOfDigits(n: nat)
    requires AllDigits(Digits(n))
    ensures Value(Digits(n)) == n
    decreases n
  {
    if n >= 10 {
      var s := Digits(n);
      assert s[..|s| - 1] == Digits(n / 10);
      ValueOfDigits(n / 10);
    }
  }

  /** Reading the number back out of a formatted identifier gives `n`. */
  lemma IdRoundTrip(n: nat)
    ensures AllDigits(FormatId(n)[1..]) && IdNumber(FormatId(n)) == n
  {
    FormatIdDigits(n);
    DigitsAreDigits(n);
    ValueOfDigits(n);
    ValueOfPad3(Digits(n));
    assert FormatId(n)[1..] == Pad3(Digits(n));
  }

  /** Distinct sequence numbers give distinct identifiers. */
  lemma FormatIdInjective(m: nat, n: nat)
    ensures FormatId(m) == FormatId(n) ==> m == n
  {
    FormatIdDigits(m);
    FormatIdDigits(n);
    IdRoundTrip(m);
    IdRoundTrip(n);
  }

  /** Identifiers numbered 1, 2, ... in list order, as a registry assigns them. */
  ghost predicate Sequential(ids: seq<string>)
  {
    forall i :: 0 <= i < |ids| ==> ids[i] == FormatId(i + 1)
  }

  /** Appending the next identifier keeps the numbering sequential. */
  lemma SequentialAppend(ids: seq<string>)
    requires Sequential(ids)
    ensures Sequential(ids + [FormatId(|ids| + 1)])
  {
  }

  /** Sequentially assigned identifiers are pairwise distinct, and the next one is new. */
  lemma SequentialIdsDistinct(ids: seq<string>)
    requires Sequential(ids)
    ensures forall i, j :: 0 <= i < j < |ids| ==> ids[i] != ids[j]
    ensures FormatId(|ids| + 1) !in ids
  {
    forall i, j | 0 <= i < j < |ids|
      ensures ids[i] != ids[j]
    {
      FormatIdInjective(i + 1, j + 1);
    }
    forall i | 0 <= i < |ids|
      ensures ids[i] != FormatId(|ids| + 1)
    {
      FormatIdInjective(i + 1, |ids| + 1);
    }
  }
}
