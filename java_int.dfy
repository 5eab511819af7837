/** Java's fixed-width integers: `int` arithmetic wraps modulo 2^32 and a
    cast from `double` to `long` truncates toward zero. */
module JavaInt {
  import opened Wrappers
  import opened Text

  /** Java `int`. */
  type Int32 = x: int | -0x8000_0000 <= x < 0x8000_0000

  /** Java `int` arithmetic wraps modulo 2^32. */
  function Wrap32(x: int): (r: Int32)
    ensures -0x8000_0000 <= x < 0x8000_0000 ==> r == x
    ensures (r - x) % 0x1_0000_0000 == 0
  {
    (x + 0x8000_0000) % 0x1_0000_0000 - 0x8000_0000
  }

  /** Java's `(long) d`: truncation toward zero. */
  function Truncate(x: real): (r: int)
    ensures x >= 0.0 ==> r as real <= x < r as real + 1.0
    ensures x < 0.0 ==> r as real - 1.0 < x <= r as real
  {
    if x >= 0.0 then x.Floor else -((-x).Floor)
  }

  /** `Integer.parseInt(s)`: an optional sign and at least one decimal digit,
      with a value in the `int` range; anything else throws
      `NumberFormatException`, here `None`. */
  function ParseInt(s: string): (r: Option<Int32>)
    ensures r.Some? ==> s != []
  {
    var signed := |s| > 0 && (s[0] == '-' || s[0] == '+');
    var digits := if signed then s[1..] else s;
    if digits == [] || !AllDigits(digits) then None
    else
      var v: int := if signed && s[0] == '-' then -(DigitsValue(digits) as int) else DigitsValue(digits);
      if -0x8000_0000 <= v < 0x8000_0000 then Some(v) else None
  }

  /** What `parseInt` accepts: a number is read only from an optional sign
      followed by digits, its sign is the text's, and a text of digits alone
      is read as its value exactly when that value fits an `int`. */
  lemma ParseIntForm(s: string)
    ensures ParseInt(s).Some? ==> (IsDigit(s[0]) || s[0] == '-' || s[0] == '+')
                                  && forall i :: 0 < i < |s| ==> IsDigit(s[i])
    ensures ParseInt(s).Some? && s[0] == '-' ==> ParseInt(s).value <= 0
    ensures ParseInt(s).Some? && s[0] != '-' ==> ParseInt(s).value >= 0
    ensures s != [] && AllDigits(s) && DigitsValue(s) < 0x8000_0000 ==> ParseInt(s) == Some(DigitsValue(s))
    ensures s != [] && AllDigits(s) && DigitsValue(s) >= 0x8000_0000 ==> ParseInt(s).None?
  {
  }

  /** `parseInt` reads back what `"" + n` prints. */
  lemma ParseIntText(n: Int32)
    ensures ParseInt(IntText(n)) == Some(n)
  {
    if n < 0 {
      NatTextValue(-(n as int));
      assert IntText(n)[1..] == NatText(-(n as int));
    } else {
      NatTextValue(n);
    }
  }
}
