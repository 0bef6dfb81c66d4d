/** Sequential document numbers `INV000001`, `PMT000001`, ... as minted by
    `InvoiceDao.generateNextInvoiceNumber` and
    `PaymentDao.generateNextPaymentId`: the largest numeric suffix among
    the stored numbers with the prefix, plus one, zero-padded to six digits. */
module Numbering {
  import opened Common
  import Text

  predicate IsDigit(c: char) { '0' <= c <= '9' }

  predicate AllDigits(s: string)
  {
    forall i :: 0 <= i < |s| ==> IsDigit(s[i])
  }

  function DigitValue(c: char): nat
    requires IsDigit(c)
  {
    c as int - '0' as int
  }

  function DigitChar(d: nat): (c: char)
    requires d < 10
    ensures IsDigit(c) && DigitValue(c) == d
  {
    ('0' as int + d) as char
  }

  /** The decimal digits of `n` without leading zeros ("0" for zero). */
  function Digits(n: nat): (s: string)
    ensures |s| >= 1 && AllDigits(s)
  {
    if n < 10 then [DigitChar(n)] else Digits(n / 10) + [DigitChar(n % 10)]
  }

  /** The number a string of decimal digits denotes. */
  function Value(s: string): nat
    requires AllDigits(s)
  {
    if s == [] then 0 else Value(s[..|s| - 1]) * 10 + DigitValue(s[|s| - 1])
  }

  function Zeros(k: nat): (s: string)
    ensures |s| == k && AllDigits(s)
  {
    if k == 0 then "" else Zeros(k - 1) + "0"
  }

  /** `String.format("%06d", n)` for a non-negative `n`, with the width as a
      parameter: the digits of `n`, left-padded with zeros to `width`. */
  function ZeroPadded(n: nat, width: nat): (s: string)
    ensures AllDigits(s)
    ensures |s| == if |Digits(n)| >= width then |Digits(n)| else width
  {
    var d := Digits(n);
    if |d| >= width then d else Zeros(width - |d|) + d
  }

  /** The longest prefix of `s` made of digits. */
  function LeadingDigits(s: string): (d: string)
    ensures AllDigits(d) && |d| <= |s| && d == s[..|d|]
    ensures |d| < |s| ==> !IsDigit(s[|d|])
  {
    if s == [] || !IsDigit(s[0]) then "" else [s[0]] + LeadingDigits(s[1..])
  }

  /** MySQL's `CAST(s AS UNSIGNED)`: the value of the leading digits, zero
      when the text does not start with a digit. */
  function CastUnsigned(s: string): nat
  {
    Value(LeadingDigits(s))
  }

  /** `SUBSTRING(number, 4)`: everything after the first three characters. */
  function Suffix(number: string): string
  {
    if |number| <= 3 then "" else number[3..]
  }

  /** The numeric suffix the generators read from a stored number. */
  function SuffixValue(number: string): nat
  {
    CastUnsigned(Suffix(number))
  }

  /** `number LIKE 'INV%'` under MySQL's default case-insensitive collation;
      a NULL number never matches. */
  predicate LikePrefix(number: JStr, prefix: string)
  {
    number.Some? && |number.value| >= |prefix| &&
    Text.EqualsIgnoreCase(prefix, Some(number.value[..|prefix|]))
  }

  /** `SELECT MAX(CAST(SUBSTRING(n, 4) AS UNSIGNED)) ... WHERE n LIKE 'P%'`,
      read with `getInt`, which turns the NULL of an empty selection into 0. */
  function MaxSuffix(numbers: seq<JStr>, prefix: string): (m: nat)
    ensures forall i :: 0 <= i < |numbers| && LikePrefix(numbers[i], prefix) ==> SuffixValue(numbers[i].value) <= m
    ensures m == 0 || exists i :: 0 <= i < |numbers| && LikePrefix(numbers[i], prefix) && SuffixValue(numbers[i].value) == m
  {
    if numbers == [] then 0
    else
      var rest := MaxSuffix(numbers[1..], prefix);
      if LikePrefix(numbers[0], prefix) && SuffixValue(numbers[0].value) > rest then SuffixValue(numbers[0].value)
      else rest
  }

  /** The number the generator mints: `prefix` followed by the largest
      suffix plus one, zero-padded to six digits. */
  function NextNumber(numbers: seq<JStr>, prefix: string): string
  {
    prefix + ZeroPadded(MaxSuffix(numbers, prefix) + 1, 6)
  }

  lemma {:induction false} ValueOfDigits(n: nat)
    ensures Value(Digits(n)) == n
  {
    if n >= 10 {
      var d := Digits(n);
      assert d[..|d| - 1] == Digits(n / 10);
      ValueOfDigits(n / 10);
    }
  }

  lemma {:induction false} ValueOfZeros(k: nat)
    ensures Value(Zeros(k)) == 0
  {
    if k > 0 {
      assert Zeros(k)[..k - 1] == Zeros(k - 1);
      ValueOfZeros(k - 1);
    }
  }

  lemma {:induction false} ValueIgnoresLeadingZeros(k: nat, d: string)
    requires AllDigits(d)
    ensures AllDigits(Zeros(k) + d) && Value(Zeros(k) + d) == Value(d)
  {
    var s := Zeros(k) + d;
    assert AllDigits(s) by {
      forall i | 0 <= i < |s| ensures IsDigit(s[i]) {
        if i < k { assert s[i] == Zeros(k)[i]; } else { assert s[i] == d[i - k]; }
      }
    }
    if d == [] {
      assert s == Zeros(k);
      ValueOfZeros(k);
    } else {
      assert s[..|s| - 1] == Zeros(k) + d[..|d| - 1];
      assert s[|s| - 1] == d[|d| - 1];
      ValueIgnoresLeadingZeros(k, d[..|d| - 1]);
    }
  }

  lemma {:induction false} LeadingDigitsOfDigits(s: string)
    requires AllDigits(s)
    ensures LeadingDigits(s) == s
  {
    if s != [] {
      LeadingDigitsOfDigits(s[1..]);
    }
  }

  /** Reading back a padded number gives the number. */
  lemma ZeroPaddedValue(n: nat, width: nat)
    ensures CastUnsigned(ZeroPadded(n, width)) == n
  {
    var d := Digits(n);
    LeadingDigitsOfDigits(ZeroPadded(n, width));
    ValueOfDigits(n);
    if |d| < width {
      ValueIgnoresLeadingZeros(width - |d|, d);
    }
  }

  /** The suffix of a minted number reads back as the number it encodes. */
  lemma FormattedSuffix(prefix: string, n: nat)
    requires |prefix| == 3
    ensures SuffixValue(prefix + ZeroPadded(n, 6)) == n
  {
    var s := prefix + ZeroPadded(n, 6);
    assert Suffix(s) == ZeroPadded(n, 6);
    ZeroPaddedValue(n, 6);
  }

  /** The minted number carries the prefix, so the next query sees it. */
  lemma NextNumberHasPrefix(numbers: seq<JStr>, prefix: string)
    ensures LikePrefix(Some(NextNumber(numbers, prefix)), prefix)
  {
    var s := NextNumber(numbers, prefix);
    assert s[..|prefix|] == prefix;
  }

  /** The minted suffix is greater than every stored suffix with the prefix,
      so the minted number differs from every stored number. */
  lemma NextNumberIsFresh(numbers: seq<JStr>, prefix: string)
    requires |prefix| == 3
    ensures SuffixValue(NextNumber(numbers, prefix)) == MaxSuffix(numbers, prefix) + 1
    ensures forall i :: 0 <= i < |numbers| && LikePrefix(numbers[i], prefix) ==>
              SuffixValue(numbers[i].value) < SuffixValue(NextNumber(numbers, prefix)) &&
              numbers[i] != Some(NextNumber(numbers, prefix))
  {
    FormattedSuffix(prefix, MaxSuffix(numbers, prefix) + 1);
  }

  /** Storing the minted number makes the next one exactly one higher. */
  lemma {:induction false} MaxSuffixAppend(numbers: seq<JStr>, prefix: string, x: JStr)
    ensures MaxSuffix(numbers + [x], prefix) ==
            if LikePrefix(x, prefix) && SuffixValue(x.value) > MaxSuffix(numbers, prefix)
            then SuffixValue(x.value) else MaxSuffix(numbers, prefix)
  {
    if numbers != [] {
      assert (numbers + [x])[1..] == numbers[1..] + [x];
      MaxSuffixAppend(numbers[1..], prefix, x);
    }
  }

  lemma NextNumberSequential(numbers: seq<JStr>, prefix: string)
    requires |prefix| == 3
    ensures MaxSuffix(numbers + [Some(NextNumber(numbers, prefix))], prefix) == MaxSuffix(numbers, prefix) + 1
  {
    NextNumberHasPrefix(numbers, prefix);
    NextNumberIsFresh(numbers, prefix);
    MaxSuffixAppend(numbers, prefix, Some(NextNumber(numbers, prefix)));
  }
}
