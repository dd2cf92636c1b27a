/** PHP value conventions the plugin relies on: `false` results, exceptions
    turned into error values, the falsiness of strings, and the decimal text
    an integer takes when it is concatenated into a string. */
module Php {

  /** `None` stands for PHP's `false` ("not found"). */
  datatype Option<+T> = None | Some(value: T)

  /** A thrown `\Exception` becomes `Failure`. */
  datatype Result<+T, +E> = Success(value: T) | Failure(error: E) {
    predicate IsFailure() { Failure? }
    function PropagateFailure<U>(): Result<U, E> requires Failure? { Failure(error) }
    function Extract(): T requires Success? { value }
  }

  /** PHP's `empty()` on a string: both "" and "0" are empty. */
  predicate EmptyString(s: string) {
    s == "" || s == "0"
  }

  function DigitChar(d: nat): char
    requires d < 10
  {
    (48 + d) as char
  }

  /** The decimal text of a non-negative integer, as `'prefix' . $n` writes it. */
  function Decimal(n: nat): (s: string)
    ensures 1 <= |s|
    ensures forall i :: 0 <= i < |s| ==> '0' <= s[i] <= '9'
    ensures (|s| == 1) == (n < 10)
    ensures s[|s| - 1] == DigitChar(n % 10)
  {
    if n < 10 then [DigitChar(n)] else Decimal(n / 10) + [DigitChar(n % 10)]
  }

  /** Different numbers have different decimal texts. */
  lemma {:induction false} DecimalInjective(a: nat, b: nat)
    requires Decimal(a) == Decimal(b)
    ensures a == b
  {
    var sa, sb := Decimal(a), Decimal(b);
    assert DigitChar(a % 10) as int == 48 + a % 10;
    assert DigitChar(b % 10) as int == 48 + b % 10;
    assert a % 10 == b % 10;
    if a >= 10 && b >= 10 {
      assert sa[..|sa| - 1] == Decimal(a / 10);
      assert sb[..|sb| - 1] == Decimal(b / 10);
      DecimalInjective(a / 10, b / 10);
    }
  }
}
