/** Shared vocabulary: Rust's Option and Result, the fixed-width unsigned
    integer types the source uses, and decimal rendering of numbers (what
    Rust's `{}` formatting and `str::parse::<u64>` do for unsigned values). */
module Base {

  /** Rust's `Option<T>`. */
  datatype Option<+T> = None | Some(value: T) {
    predicate IsFailure() { None? }

    function PropagateFailure<U>(): Option<U>
      requires None?
    {
      None
    }

    function Extract(): T
      requires Some?
    {
      value
    }

    /** `Option::or_else` with an already evaluated alternative. */
    function OrElse(other: Option<T>): Option<T>
    {
      if Some? then this else other
    }
  }

  /** Rust's `Result<T, E>`; usable with `:-`. */
  datatype Result<+T, +E> = Ok(value: T) | Err(error: E) {
    predicate IsFailure() { Err? }

    function PropagateFailure<U>(): Result<U, E>
      requires Err?
    {
      Err(error)
    }

    function Extract(): T
      requires Ok?
    {
      value
    }
  }

  const U16_LIMIT: int := 0x1_0000
  const U32_LIMIT: int := 0x1_0000_0000
  const U64_LIMIT: int := 0x1_0000_0000_0000_0000

  type u16 = x: int | 0 <= x < U16_LIMIT
  type u32 = x: int | 0 <= x < U32_LIMIT
  type u64 = x: int | 0 <= x < U64_LIMIT
  /** `usize` on the 64-bit targets the crate is built for. */
  type usize = x: int | 0 <= x < U64_LIMIT

  /** Is `c` an ASCII decimal digit? */
  predicate IsDigit(c: char)
  {
    '0' <= c <= '9'
  }

  function DigitValue(c: char): nat
    requires IsDigit(c)
  {
    c as int - '0' as int
  }

  /** Does `s` consist of ASCII decimal digits only? */
  predicate AllDigits(s: string)
  {
    forall i :: 0 <= i < |s| ==> IsDigit(s[i])
  }

  /** The value of a string of decimal digits, most significant first. */
  function DigitsValue(s: string): nat
    requires AllDigits(s)
  {
    if s == [] then 0 else 10 * DigitsValue(s[..|s| - 1]) + DigitValue(s[|s| - 1])
  }

  /** Decimal rendering of a natural number, as Rust's `{}` formats an unsigned integer. */
  function Decimal(n: nat): (s: string)
    ensures |s| > 0
    ensures AllDigits(s)
    ensures DigitsValue(s) == n
  {
    var d := n % 10;
    var c := ('0' as int + d) as char;
    assert DigitValue(c) == d;
    if n < 10 then [c]
    else
      var s := Decimal(n / 10) + [c];
      assert s[..|s| - 1] == Decimal(n / 10);
      s
  }

  /** Rust's `str::parse::<u64>()`: an optional `+`, then one or more ASCII
      digits, with a value that fits in 64 bits; anything else is an error
      (represented by `None`, as `.ok()` does at the call site). */
  function ParseU64(s: string): (r: Option<u64>)
    ensures r.Some? ==> |s| > 0
    ensures var d := if |s| > 0 && s[0] == '+' then s[1..] else s;
      r.Some? ==> |d| > 0 && AllDigits(d) && r.value == DigitsValue(d)
    ensures var d := if |s| > 0 && s[0] == '+' then s[1..] else s;
      |d| > 0 && AllDigits(d) && DigitsValue(d) < U64_LIMIT ==> r.Some?
  {
    var digits := if |s| > 0 && s[0] == '+' then s[1..] else s;
    if |digits| == 0 then None
    else if !AllDigits(digits) then None
    else if DigitsValue(digits) >= U64_LIMIT then None
    else Some(DigitsValue(digits))
  }

  /** Rendering a `u64` in decimal and parsing it back gives the same number. */
  lemma ParseDecimalRoundTrip(n: u64)
    ensures ParseU64(Decimal(n)) == Some(n)
  {
    var s := Decimal(n);
    assert s[0] != '+' by { assert IsDigit(s[0]); }
  }

  /** A character that is neither a digit nor a leading `+` makes the
      parser refuse the text: a date, a sign, a decimal point or a space. */
  lemma ParseRejectsNonDigit(s: string, k: nat)
    requires k < |s| && !IsDigit(s[k]) && !(k == 0 && s[k] == '+')
    ensures ParseU64(s) == None
  {
    var d := if |s| > 0 && s[0] == '+' then s[1..] else s;
    if s[0] == '+' {
      assert d[k - 1] == s[k];
    } else {
      assert d[k] == s[k];
    }
  }

  /** A leading `-` is never accepted by the unsigned parser. */
  lemma ParseRejectsMinus(s: string)
    ensures ParseU64(['-'] + s) == None
  {
    var t := ['-'] + s;
    assert t[0] == '-';
    assert !AllDigits(t) by { assert !IsDigit(t[0]); }
  }
}
