/** The withdrawal amount typed on the keypad (`calculate_withdrawal_amount`,
    atm.rs lines 87-96): the texts of the keys before the first `Enter` are
    concatenated and the result is parsed as a `u64`. */
module Amount {
  import opened Base
  import opened Keypad

  function Pow10(n: nat): (p: nat)
    ensures p >= 1
  {
    if n == 0 then 1 else 10 * Pow10(n - 1)
  }

  predicate AllDecimal(t: string)
  {
    forall i :: 0 <= i < |t| ==> IsDecimalChar(t[i])
  }

  /** Positional value of a decimal text, most significant digit first. */
  function TextValue(t: string): nat
    requires AllDecimal(t)
  {
    if |t| == 0 then 0 else CharValue(t[0]) * Pow10(|t| - 1) + TextValue(t[1..])
  }

  /** Positional value of a sequence of digit keys, most significant key first. */
  function KeysValue(ks: seq<Key>): nat
    requires AllDigits(ks)
  {
    if |ks| == 0 then 0 else ks[0].Digit() * Pow10(|ks| - 1) + KeysValue(ks[1..])
  }

  /** The value of the digits of `acc` followed by the digits of `t`. */
  function Continued(acc: nat, t: string): nat
    requires AllDecimal(t)
  {
    acc * Pow10(|t|) + TextValue(t)
  }

  /** Taking the leading digit off a text: what is left is worth the same once the
      digit is folded into the accumulator. */
  lemma {:induction false} ShiftDigit(acc: nat, t: string)
    requires |t| > 0 && IsDecimalChar(t[0])
    ensures AllDecimal(t) <==> AllDecimal(t[1..])
    ensures AllDecimal(t) ==> Continued(acc, t) == Continued(acc * 10 + CharValue(t[0]), t[1..])
  {
    assert forall i :: 0 < i < |t| ==> t[i] == t[1..][i - 1];
  }

  /** The digit loop of Rust's `u64` parser: each character must be a decimal
      digit, and the accumulator is multiplied by ten and the digit added, each
      step failing on overflow. */
  function Accumulate(acc: U64, t: string): (r: Option<U64>)
    ensures r.Some? <==> AllDecimal(t) && Continued(acc, t) < U64_LIMIT
    ensures r.Some? ==> AllDecimal(t) && r.value == Continued(acc, t)
    decreases |t|
  {
    if |t| == 0 then Some(acc)
    else if !IsDecimalChar(t[0]) then None
    else
      ShiftDigit(acc, t);
      if acc * 10 >= U64_LIMIT || acc * 10 + CharValue(t[0]) >= U64_LIMIT then None
      else Accumulate(acc * 10 + CharValue(t[0]), t[1..])
  }

  /** `str::parse::<u64>`, as far as the amount texts need it: the empty text and
      any text with a non-digit are rejected, and so is a value of 2^64 or more. */
  function ParseU64(t: string): (r: Option<U64>)
    ensures r.Some? <==> |t| > 0 && AllDecimal(t) && TextValue(t) < U64_LIMIT
    ensures r.Some? ==> AllDecimal(t) && r.value == TextValue(t)
  {
    if |t| == 0 then None else Accumulate(0, t)
  }

  /** The keys typed before the first `Enter`: the part of the register the
      withdrawal loop reads before it breaks. */
  function DigitPrefix(reg: seq<Key>): (p: seq<Key>)
    ensures p <= reg
    ensures AllDigits(p)
    ensures |p| < |reg| ==> reg[|p|].Enter?
  {
    if |reg| == 0 || reg[0].Enter? then [] else [reg[0]] + DigitPrefix(reg[1..])
  }

  /** The amount text built by the loop of `calculate_withdrawal_amount`: the key
      texts of the register pushed one after another, stopping at `Enter`. */
  function AmountText(reg: seq<Key>): (t: string)
    ensures |t| == |DigitPrefix(reg)|
    ensures AllDecimal(t)
    ensures forall i :: 0 <= i < |t| ==> CharValue(t[i]) == DigitPrefix(reg)[i].Digit()
  {
    if |reg| == 0 || reg[0].Enter? then "" else KeyText(reg[0]) + AmountText(reg[1..])
  }

  /** A text that spells a key sequence digit by digit has the keys' value. */
  lemma {:induction false} TextValueOfKeys(t: string, ks: seq<Key>)
    requires AllDecimal(t) && AllDigits(ks) && |t| == |ks|
    requires forall i :: 0 <= i < |t| ==> CharValue(t[i]) == ks[i].Digit()
    ensures TextValue(t) == KeysValue(ks)
  {
    if |t| > 0 {
      TextValueOfKeys(t[1..], ks[1..]);
    }
  }

  /** `calculate_withdrawal_amount`: the decimal value of the digits typed before
      the first `Enter`; nothing when no digit precedes it (the empty text does not
      parse) or when the value does not fit in a `u64`. */
  function CalculateWithdrawalAmount(reg: seq<Key>): (r: Option<U64>)
    ensures r.Some? <==> |DigitPrefix(reg)| > 0 && KeysValue(DigitPrefix(reg)) < U64_LIMIT
    ensures r.Some? ==> r.value == KeysValue(DigitPrefix(reg))
  {
    var text := AmountText(reg);
    TextValueOfKeys(text, DigitPrefix(reg));
    ParseU64(text)
  }

  /** A register of digits only is read in full. */
  lemma DigitPrefixOfDigits(reg: seq<Key>)
    requires AllDigits(reg)
    ensures DigitPrefix(reg) == reg
  {
  }

  /** There is no zero key, so n typed digits are worth at least 10^(n-1), and any typed amount at least 1. */
  lemma KeysValueLowerBound(ks: seq<Key>)
    requires AllDigits(ks) && |ks| > 0
    ensures KeysValue(ks) >= Pow10(|ks| - 1)
  {
  }

  /** The character of a decimal digit. */
  function DigitChar(d: nat): (c: char)
    requires d <= 9
    ensures IsDecimalChar(c) && CharValue(c) == d
  {
    ('0' as int + d) as char
  }

  /** The decimal text of a number, as `u64::to_string` writes it. */
  function DecimalText(n: nat): (t: string)
    ensures |t| > 0 && AllDecimal(t)
  {
    if n < 10 then [DigitChar(n)] else DecimalText(n / 10) + [DigitChar(n % 10)]
  }

  /** (a * 10^k + r) * 10 + c, regrouped around the leading digit. */
  lemma Regroup10(a: nat, p: nat, r: nat, c: nat)
    ensures a * (10 * p) + (10 * r + c) == 10 * (a * p + r) + c
  {
  }

  /** Appending a digit to a text multiplies its value by ten and adds the digit. */
  lemma {:induction false} TextValueSnoc(t: string, c: char)
    requires AllDecimal(t) && IsDecimalChar(c)
    ensures AllDecimal(t + [c])
    ensures TextValue(t + [c]) == 10 * TextValue(t) + CharValue(c)
  {
    if |t| > 0 {
      TextValueSnoc(t[1..], c);
      assert (t + [c])[1..] == t[1..] + [c];
      Regroup10(CharValue(t[0]), Pow10(|t| - 1), TextValue(t[1..]), CharValue(c));
    }
  }

  lemma {:induction false} DecimalTextValue(n: nat)
    ensures TextValue(DecimalText(n)) == n
  {
    if n >= 10 {
      DecimalTextValue(n / 10);
      TextValueSnoc(DecimalText(n / 10), DigitChar(n % 10));
    }
  }

  /** Parsing undoes formatting: every `u64` reads back from its decimal text. */
  lemma ParseDecimalText(n: U64)
    ensures ParseU64(DecimalText(n)) == Some(n)
  {
    DecimalTextValue(n);
  }

  /** The amounts typed on the keypad in the unit tests. */
  lemma WithdrawalAmountExamples()
    ensures CalculateWithdrawalAmount([One]) == Some(1)
    ensures CalculateWithdrawalAmount([One, Four]) == Some(14)
    ensures CalculateWithdrawalAmount([]) == None
  {
  }
}
