/** `formatNumber` on natural numbers: the decimal digits of `num.toString()`
    with a comma inserted wherever the pattern `\B(?=(\d{3})+(?!\d))`
    matches, that is, at every position inside the digits that is followed
    by a positive multiple of three digits. */
module NumberFormat {

  predicate IsDigit(c: char) {
    '0' <= c <= '9'
  }

  function DigitChar(d: nat): (c: char)
    requires d < 10
    ensures IsDigit(c) && (c as int) - ('0' as int) == d
  {
    (('0' as int) + d) as char
  }

  /** `num.toString()` for a natural number: its decimal digits, most
      significant first, with no leading zero. */
  function DecimalString(n: nat): (s: string)
    ensures |s| >= 1
    ensures forall i :: 0 <= i < |s| ==> IsDigit(s[i])
    ensures s[0] == '0' ==> n == 0
    decreases n
  {
    if n < 10 then [DigitChar(n)] else DecimalString(n / 10) + [DigitChar(n % 10)]
  }

  /** The value of one decimal digit. */
  function DigitValue(c: char): (d: nat)
    requires IsDigit(c)
    ensures d < 10
  {
    (c as int) - ('0' as int)
  }

  /** The number a string of decimal digits denotes. */
  function DigitsValue(s: string): nat
    requires forall i :: 0 <= i < |s| ==> IsDigit(s[i])
  {
    if s == [] then 0
    else DigitsValue(s[..|s| - 1]) * 10 + DigitValue(s[|s| - 1])
  }

  /** The decimal string of `n` denotes `n`. */
  lemma {:induction false} DecimalStringValue(n: nat)
    ensures DigitsValue(DecimalString(n)) == n
    decreases n
  {
    var s := DecimalString(n);
    if n >= 10 {
      DecimalStringValue(n / 10);
      assert s[..|s| - 1] == DecimalString(n / 10);
    }
  }

  /** Whether the pattern inserts a comma before position `i` of a run of
      `len` digits: `\B` rules out the start of the run, and the lookahead
      asks for a positive multiple of three digits up to its end. */
  predicate CommaBefore(len: nat, i: nat) {
    0 < i < len && (len - i) % 3 == 0
  }

  /** The replacement, from position `i` of the digits on. */
  function InsertCommas(digits: string, i: nat): string
    requires i <= |digits|
    decreases |digits| - i
  {
    if i == |digits| then []
    else Separator(|digits|, i) + [digits[i]] + InsertCommas(digits, i + 1)
  }

  /** What the replacement puts before position `i`. */
  function Separator(len: nat, i: nat): string {
    if CommaBefore(len, i) then [','] else []
  }

  /** The characters of a string other than commas. */
  function RemoveCommas(t: string): string {
    if t == [] then [] else (if t[0] == ',' then [] else [t[0]]) + RemoveCommas(t[1..])
  }

  /** `formatNumber` for a natural number. */
  function FormatNumber(n: nat): (t: string)
    ensures RemoveCommas(t) == DecimalString(n)
    ensures |t| % 4 != 0
    ensures forall p :: 0 <= p < |t| ==> (t[p] == ',' <==> (|t| - p) % 4 == 0)
  {
    var digits := DecimalString(n);
    assert ',' !in digits by {
      forall k | 0 <= k < |digits| ensures digits[k] != ',' {
        assert IsDigit(digits[k]);
      }
    }
    CommasRemoved(digits, 0);
    Grouped(digits);
    InsertCommas(digits, 0)
  }

  /** Deleting the commas from the replacement gives back the digits. */
  lemma {:induction false} CommasRemoved(digits: string, i: nat)
    requires i <= |digits|
    requires ',' !in digits
    ensures RemoveCommas(InsertCommas(digits, i)) == digits[i..]
    decreases |digits| - i
  {
    if i < |digits| {
      var d := digits[i];
      var rest := InsertCommas(digits, i + 1);
      var sep := Separator(|digits|, i);
      CommasRemoved(digits, i + 1);
      RemoveCommasCons(d, rest);
      SeparatorRemoved(|digits|, i, [d] + rest);
      assert InsertCommas(digits, i) == sep + ([d] + rest);
      assert digits[i..] == [d] + digits[i + 1..];
    }
  }

  /** Deleting commas also deletes the separator. */
  lemma SeparatorRemoved(len: nat, i: nat, rest: string)
    ensures RemoveCommas(Separator(len, i) + rest) == RemoveCommas(rest)
  {
    if CommaBefore(len, i) {
      RemoveCommasCons(',', rest);
    } else {
      assert Separator(len, i) + rest == rest;
    }
  }

  /** Deleting commas, one leading character at a time. */
  lemma RemoveCommasCons(c: char, rest: string)
    ensures RemoveCommas([c] + rest) == (if c == ',' then [] else [c]) + RemoveCommas(rest)
  {
    assert ([c] + rest)[1..] == rest;
  }

  /** Past the first digit, the replacement of the last `m` digits has
      `m + m / 3` characters and its commas are exactly every fourth
      character counted from the end. */
  lemma {:induction false} CommaPositions(digits: string, i: nat)
    requires 0 < i <= |digits|
    requires forall k :: 0 <= k < |digits| ==> IsDigit(digits[k])
    ensures var t := InsertCommas(digits, i);
      && |t| == (|digits| - i) + (|digits| - i) / 3
      && forall p :: 0 <= p < |t| ==> (t[p] == ',' <==> (|t| - p) % 4 == 0)
    decreases |digits| - i
  {
    if i < |digits| {
      CommaPositions(digits, i + 1);
      var rest := InsertCommas(digits, i + 1);
      var t := InsertCommas(digits, i);
      var prefix := Separator(|digits|, i) + [digits[i]];
      assert t == prefix + rest;
      CommasAfterPrefix(prefix, rest);
      GroupArithmetic(|digits| - i);
      assert IsDigit(digits[i]);
      forall p | 0 <= p < |prefix|
        ensures t[p] == ',' <==> (|t| - p) % 4 == 0
      {
        if CommaBefore(|digits|, i) {
          assert prefix == [',', digits[i]];
        } else {
          assert prefix == [digits[i]];
        }
      }
    }
  }

  /** Lengths of the replacement of the last `m` digits against that of the
      last `m - 1`: a group boundary adds a comma and a digit, reaching a
      multiple of four, any other position adds one digit. */
  lemma GroupArithmetic(m: nat)
    requires m >= 1
    ensures var len := (m - 1) + (m - 1) / 3;
      && (m % 3 == 0 ==> len + 2 == m + m / 3 && (len + 2) % 4 == 0 && (len + 1) % 4 != 0)
      && (m % 3 != 0 ==> len + 1 == m + m / 3 && (len + 1) % 4 != 0)
  {
  }

  /** Prepending text keeps the commas of what follows at their distance
      from the end. */
  lemma CommasAfterPrefix(prefix: string, rest: string)
    requires forall p :: 0 <= p < |rest| ==> (rest[p] == ',' <==> (|rest| - p) % 4 == 0)
    ensures forall p :: |prefix| <= p < |prefix + rest| ==>
      ((prefix + rest)[p] == ',' <==> (|prefix + rest| - p) % 4 == 0)
  {
    forall p | |prefix| <= p < |prefix + rest|
      ensures (prefix + rest)[p] == ',' <==> (|prefix + rest| - p) % 4 == 0
    {
      assert (prefix + rest)[p] == rest[p - |prefix|];
    }
  }

  /** The whole replacement: the first group holds one to three digits
      and every later group, after its comma, exactly three. */
  lemma Grouped(digits: string)
    requires |digits| >= 1
    requires forall k :: 0 <= k < |digits| ==> IsDigit(digits[k])
    ensures var t := InsertCommas(digits, 0);
      && |t| % 4 != 0
      && forall p :: 0 <= p < |t| ==> (t[p] == ',' <==> (|t| - p) % 4 == 0)
  {
    CommaPositions(digits, 1);
    var rest := InsertCommas(digits, 1);
    var t := InsertCommas(digits, 0);
    assert t == [digits[0]] + rest;
    forall p | 1 <= p < |t| ensures t[p] == rest[p - 1] {}
  }

  /** Worked values: the comma separates thousands, lakhs are not used. */
  lemma FormatExamples()
    ensures FormatNumber(0) == "0"
    ensures FormatNumber(1000) == "1,000"
  {
    assert DecimalString(1000) == "1000" by {
      assert DecimalString(1) == "1";
      assert DecimalString(10) == "10";
      assert DecimalString(100) == "100";
    }
    var d := "1000";
    assert InsertCommas(d, 3) == "0";
    assert InsertCommas(d, 2) == "00";
    assert InsertCommas(d, 1) == ",000";
    assert InsertCommas(d, 0) == "1,000";
  }
}
