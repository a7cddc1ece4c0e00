/** Text produced by the firmware's `snprintf("%d")` calls and its
    fixed-size name buffers. */
module Text {

  predicate IsDigit(c: char) { '0' <= c <= '9' }

  predicate AllDigits(s: string) { forall i :: 0 <= i < |s| ==> IsDigit(s[i]) }

  function DigitChar(d: nat): (c: char)
    requires d < 10
    ensures IsDigit(c) && c as int - '0' as int == d
  {
    (d + '0' as int) as char
  }

  /** `%d` of a non-negative integer: its decimal digits, most significant
      first, without leading zeros. */
  function Decimal(n: nat): (r: string)
    ensures 1 <= |r|
    ensures AllDigits(r)
    ensures (r[0] == '0') <==> n == 0
    decreases n
  {
    if n < 10 then [DigitChar(n)] else Decimal(n / 10) + [DigitChar(n % 10)]
  }

  /** The number a string of decimal digits denotes (the reading direction
      of `Decimal`). */
  function DigitsValue(s: string): nat
    requires AllDigits(s)
  {
    if |s| == 0 then 0
    else DigitsValue(s[..|s| - 1]) * 10 + (s[|s| - 1] as int - '0' as int)
  }

  /** Reading back what `%d` printed gives the original number. */
  lemma {:induction false} DecimalRoundTrip(n: nat)
    ensures DigitsValue(Decimal(n)) == n
    decreases n
  {
    if n >= 10 {
      var r := Decimal(n);
      assert r[..|r| - 1] == Decimal(n / 10);
      DecimalRoundTrip(n / 10);
    }
  }

  /** Two numbers print the same exactly when they are equal. */
  lemma DecimalInjective(a: nat, b: nat)
    ensures Decimal(a) == Decimal(b) <==> a == b
  {
    if Decimal(a) == Decimal(b) {
      DecimalRoundTrip(a);
      DecimalRoundTrip(b);
    }
  }

  /** A C string never holds the terminating NUL inside it. */
  predicate NoNul(s: string) { forall i :: 0 <= i < |s| ==> s[i] != '\0' }

  /** A C string as the firmware sees it: one character per byte, so a
      UTF-8 name is given as its encoded bytes and `|s|` counts bytes. */
  predicate Bytes(s: string) { forall i :: 0 <= i < |s| ==> s[i] as int < 256 }

  /** Capacity of the firmware's 32-byte name buffers, minus the terminator. */
  const NAME_MAX: nat := 31

  /** `strncpy(dst, src, 31); dst[31] = '\0'`: the first 31 bytes of a
      name given as its bytes. */
  function TruncateName(name: string): (r: string)
    ensures |r| <= NAME_MAX
    ensures |name| <= NAME_MAX ==> r == name
    ensures |name| > NAME_MAX ==> |r| == NAME_MAX && r == name[..NAME_MAX]
    ensures NoNul(name) ==> NoNul(r)
    ensures Bytes(name) ==> Bytes(r)
  {
    if |name| <= NAME_MAX then name else name[..NAME_MAX]
  }
}
