/** Decimal text of 64-bit integers, as strconv.Itoa writes it and strconv.Atoi reads it. */
module Decimal {
  import opened Wrappers

  type Int64 = i: int | -0x8000_0000_0000_0000 <= i < 0x8000_0000_0000_0000

  function Digit(d: nat): char
    requires d < 10
  {
    '0' + d as char
  }

  function Digits(n: nat): string {
    if n < 10 then [Digit(n)] else Digits(n / 10) + [Digit(n % 10)]
  }

  function Itoa(i: int): string {
    if i < 0 then "-" + Digits(-i) else Digits(i)
  }

  predicate IsDigit(c: char) {
    '0' <= c <= '9'
  }

  function ParseDigits(s: string): Option<nat> {
    if s == [] || !IsDigit(s[|s| - 1]) then None
    else
      var d := (s[|s| - 1] - '0') as nat;
      if |s| == 1 then Some(d)
      else
        var high := ParseDigits(s[..|s| - 1]);
        if high.None? then None else Some(10 * high.value + d)
  }

  /** An optional sign, at least one digit, nothing else, and a value that fits. */
  function Atoi(s: string): Option<int> {
    var signed := s != [] && (s[0] == '-' || s[0] == '+');
    var magnitude := ParseDigits(if signed then s[1..] else s);
    if magnitude.None? then None
    else
      var m: int := magnitude.value;
      var i := if signed && s[0] == '-' then -m else m;
      if -0x8000_0000_0000_0000 <= i < 0x8000_0000_0000_0000 then Some(i) else None
  }

  lemma {:induction false} ParseDigitsRoundTrip(n: nat)
    ensures ParseDigits(Digits(n)) == Some(n)
    ensures Digits(n) != [] && IsDigit(Digits(n)[0])
  {
    if n >= 10 {
      ParseDigitsRoundTrip(n / 10);
      assert Digits(n)[..|Digits(n)| - 1] == Digits(n / 10);
    }
  }

  lemma AtoiOfDigits(digits: string, n: nat)
    requires ParseDigits(digits) == Some(n) && digits != "" && IsDigit(digits[0])
    ensures n < 0x8000_0000_0000_0000 ==> Atoi(digits) == Some(n)
    ensures n <= 0x8000_0000_0000_0000 ==> Atoi("-" + digits) == Some(-(n as int))
  {
    assert ("-" + digits)[1..] == digits && ("-" + digits)[0] == '-';
  }

  lemma WrittenDigits(n: nat)
    requires n <= 0x8000_0000_0000_0000
    ensures n < 0x8000_0000_0000_0000 ==> Atoi(Digits(n)) == Some(n)
    ensures Atoi("-" + Digits(n)) == Some(-(n as int)) && Digits(n) != ""
  {
    ParseDigitsRoundTrip(n);
    AtoiOfDigits(Digits(n), n);
  }

  /** Every generation that was written reads back as itself. */
  lemma AtoiRoundTrip(i: Int64)
    ensures Atoi(Itoa(i)) == Some(i)
    ensures Itoa(i) != ""
  {
    if i < 0 {
      WrittenDigits(-(i as int));
    } else {
      WrittenDigits(i);
    }
  }

  /** It is written without a plus sign or leading zeros. */
  lemma {:induction false} DigitsAreCanonical(n: nat)
    ensures Digits(n) != "" && forall k :: 0 <= k < |Digits(n)| ==> '0' <= Digits(n)[k] <= '9'
    ensures Digits(n)[0] == '0' <==> n == 0
    ensures n == 0 ==> |Digits(n)| == 1
  {
    if n >= 10 {
      DigitsAreCanonical(n / 10);
    }
  }

  /** Digits are read exactly if there are any and there is nothing else. */
  lemma {:induction false} ParseDigitsIff(s: string)
    ensures ParseDigits(s).Some? <==> s != "" && forall i :: 0 <= i < |s| ==> IsDigit(s[i])
  {
    if |s| > 1 {
      ParseDigitsIff(s[..|s| - 1]);
      assert forall i :: 0 <= i < |s| - 1 ==> s[..|s| - 1][i] == s[i];
    }
  }

  /** A text is refused exactly if, after an optional sign, it is empty or has a character that is
      no digit, or if its value does not fit. */
  lemma AtoiRefusesIff(s: string)
    ensures var digits := if s != "" && (s[0] == '-' || s[0] == '+') then s[1..] else s;
      Atoi(s).None? <==>
      || digits == ""
      || (exists i :: 0 <= i < |digits| && !('0' <= digits[i] <= '9'))
      || (ParseDigits(digits).Some?
          && ParseDigits(digits).value >= if s[0] == '-' then 0x8000_0000_0000_0001 else 0x8000_0000_0000_0000)
  {
    ParseDigitsIff(if s != "" && (s[0] == '-' || s[0] == '+') then s[1..] else s);
  }
}
