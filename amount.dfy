/**
 The amount typed on the driver's keypad (`montant`): a string of decimal
 digits, at most seven of them, and the two JavaScript expressions the
 application evaluates on it: `parseInt(montant) > 0` (the guard of the
 validate key) and `!parseInt(montant) > 0` (the validate button's
 `disabled` flag).
 */
module Amount {

  /** The keypad accepts a digit only while the amount has fewer characters than this. */
  const MaxAmountDigits := 7

  /** The value of one keypad digit button. */
  type DigitValue = d: int | 0 <= d <= 9

  predicate IsDigit(c: char) {
    '0' <= c <= '9'
  }

  predicate IsDigits(s: string) {
    forall i :: 0 <= i < |s| ==> IsDigit(s[i])
  }

  predicate HasNonZeroDigit(s: string) {
    exists i :: 0 <= i < |s| && s[i] != '0'
  }

  /** The character JavaScript's `prev + num` appends for the digit button `num`. */
  function DigitChar(d: DigitValue): (c: char)
    ensures IsDigit(c) && DigitOf(c) == d
  {
    (d + '0' as int) as char
  }

  function DigitOf(c: char): (d: DigitValue)
    requires IsDigit(c)
  {
    c as int - '0' as int
  }

  function Pow10(n: nat): (r: nat)
    ensures r >= 1
  {
    if n == 0 then 1 else 10 * Pow10(n - 1)
  }

  /** The decimal value of a digit string, read most significant digit first. */
  function AmountValue(s: string): (r: nat)
    requires IsDigits(s)
    ensures r < Pow10(|s|)
    decreases |s|
  {
    if s == [] then 0
    else
      var prefix := s[..|s| - 1];
      assert IsDigits(prefix) by {
        forall i | 0 <= i < |prefix| ensures IsDigit(prefix[i]) { assert prefix[i] == s[i]; }
      }
      var v := AmountValue(prefix);
      assert v * 10 <= (Pow10(|prefix|) - 1) * 10;
      v * 10 + DigitOf(s[|s| - 1])
  }

  /** What `parseInt` returns on a digit string: `NaN` on the empty string, its value otherwise. */
  datatype ParsedInt = NaN | Num(value: nat)

  function ParseInt(s: string): (r: ParsedInt)
    requires IsDigits(s)
    ensures r == NaN <==> s == []
    ensures r.Num? ==> r.value < Pow10(|s|)
  {
    if s == [] then NaN else Num(AmountValue(s))
  }

  /** `parseInt(montant) > 0`: a comparison with `NaN` is false. */
  predicate ParsesPositive(s: string)
    requires IsDigits(s)
  {
    match ParseInt(s)
    case NaN => false
    case Num(v) => v > 0
  }

  /** JavaScript's `!` on a number: `NaN` and `0` are falsy. */
  function JsNot(p: ParsedInt): (r: bool) {
    match p
    case NaN => true
    case Num(v) => v == 0
  }

  /** JavaScript's conversion of a boolean operand of `>` to a number. */
  function BoolToNumber(b: bool): (n: nat) {
    if b then 1 else 0
  }

  /**
   The validate button's `disabled` flag, `!parseInt(montant) > 0`, which
   JavaScript parses as `(!parseInt(montant)) > 0`. It is set exactly when
   the validate key would not advance, that is, when the amount has no
   non-zero digit (the empty amount included).
   */
  function ValidateDisabled(s: string): (r: bool)
    requires IsDigits(s)
    ensures r <==> !ParsesPositive(s)
    ensures r <==> !HasNonZeroDigit(s)
  {
    PositiveIffNonZeroDigit(s);
    BoolToNumber(JsNot(ParseInt(s))) > 0
  }

  /** A digit string has value 0 exactly when none of its digits is non-zero. */
  lemma {:induction false} ZeroValueIffNoNonZeroDigit(s: string)
    requires IsDigits(s)
    ensures AmountValue(s) == 0 <==> !HasNonZeroDigit(s)
  {
    if s != [] {
      var prefix := s[..|s| - 1];
      assert IsDigits(prefix) by {
        forall i | 0 <= i < |prefix| ensures IsDigit(prefix[i]) { assert prefix[i] == s[i]; }
      }
      ZeroValueIffNoNonZeroDigit(prefix);
      if HasNonZeroDigit(prefix) {
        var i :| 0 <= i < |prefix| && prefix[i] != '0';
        assert s[i] == prefix[i];
      }
      if HasNonZeroDigit(s) {
        var i :| 0 <= i < |s| && s[i] != '0';
        if i < |prefix| {
          assert prefix[i] == s[i];
        }
      }
    }
  }

  /** `parseInt(montant) > 0` holds exactly when the amount is non-empty and not all zeros. */
  lemma PositiveIffNonZeroDigit(s: string)
    requires IsDigits(s)
    ensures ParsesPositive(s) <==> HasNonZeroDigit(s)
    ensures ParsesPositive(s) ==> s != []
  {
    ZeroValueIffNoNonZeroDigit(s);
  }

  /** Appending a digit keeps a digit string and shifts its value by one decimal place. */
  lemma AppendDigit(m: string, d: DigitValue)
    requires IsDigits(m)
    ensures IsDigits(m + [DigitChar(d)])
    ensures AmountValue(m + [DigitChar(d)]) == AmountValue(m) * 10 + d
  {
  }
}
