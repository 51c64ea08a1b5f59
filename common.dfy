/** Values shared by the whole model: PHP's nullable values, the exceptions the
    file manager lets escape, PHP's truthiness of strings and PHP's `%`. */
module Common {

  datatype Option<+T> = None | Some(value: T)

  /** The exceptions that escape from the file manager. */
  datatype Error =
    | AmbiguousRoot   // getSavePath: "Many option for file path available"
    | DivisionByZero  // a shard level count configured as 0
    | BadLevelCount   // a shard level count that is not an integer
    | FileNotSaved    // saveFileForObject: "file not saved"

  /** A value, or the exception that was thrown instead. */
  datatype Result<+T> = Ok(value: T) | Err(error: Error)

  /** PHP truthiness of a nullable string: null, "" and "0" are false. */
  predicate Truthy(s: Option<string>) {
    s.Some? && s.value != "" && s.value != "0"
  }

  /** A nullable string interpolated into a PHP double-quoted string. */
  function Interpolate(s: Option<string>): string {
    if s.Some? then s.value else ""
  }

  function Abs(n: int): nat {
    if n < 0 then -n else n
  }

  /** PHP's `%` on integers: it truncates, so the remainder takes the sign of
      the dividend and its magnitude is below that of the divisor. */
  function PhpMod(a: int, n: int): (r: int)
    requires n != 0
    ensures Abs(r) < Abs(n)
    ensures a >= 0 ==> r >= 0
    ensures a <= 0 ==> r <= 0
    ensures (a - r) % n == 0
  {
    var m := Abs(a) % Abs(n);
    var q := Abs(a) / Abs(n);
    assert Abs(a) == q * Abs(n) + m;
    if a >= 0 then
      assert a - m == q * Abs(n);
      MultipleMod(q, Abs(n), n);
      m
    else
      assert a + m == -(q * Abs(n)) == (-q) * Abs(n);
      MultipleMod(-q, Abs(n), n);
      -m
  }

  /** A multiple of |n| leaves no remainder modulo n. */
  lemma MultipleMod(q: int, k: nat, n: int)
    requires n != 0 && k == Abs(n)
    ensures (q * k) % n == 0
  {
    var x := q * k;
    var d := x / n;
    var rem := x % n;
    assert x == d * n + rem;
    assert 0 <= rem < k;
    var e := if n > 0 then q - d else -q - d;
    assert rem == e * n by {
      if n > 0 { assert x == q * n; } else { assert x == (-q) * n; }
    }
    if e > 0 {
      MulMonotone(e, n);
    } else if e < 0 {
      MulMonotone(-e, n);
    }
  }

  /** A non-zero multiple of n is at least |n| away from zero. */
  lemma MulMonotone(e: int, n: int)
    requires e >= 1 && n != 0
    ensures Abs(e * n) >= Abs(n)
  {
  }

  function DigitChar(d: int): char
    requires 0 <= d < 10
  {
    "0123456789"[d]
  }

  function NatDigits(n: nat): string
    decreases n
  {
    if n < 10 then [DigitChar(n)] else NatDigits(n / 10) + [DigitChar(n % 10)]
  }

  /** An integer interpolated into a PHP string: its decimal rendering. */
  function DecimalString(n: int): string {
    if n < 0 then "-" + NatDigits(-n) else NatDigits(n)
  }
}
