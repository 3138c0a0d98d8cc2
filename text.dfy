/** Python's `'{}'.format(...)` for the values that appear in layer names and
    exception messages: naturals, integers and lists of integers. */
module Text {

  /** The decimal digits of `n`. */
  function Decimal(n: nat): (s: string)
    ensures |s| >= 1 && forall k :: 0 <= k < |s| ==> '0' <= s[k] <= '9'
  {
    var digit := (n % 10) as char + '0' as char;
    if n < 10 then [digit] else Decimal(n / 10) + [digit]
  }

  /** An integer: a minus sign for a negative one, then its digits. */
  function IntText(n: int): string
  {
    if n < 0 then "-" + Decimal(-n) else Decimal(n)
  }

  /** A Python list of integers: `[a, b, c]`. */
  function ListText(xs: seq<int>): string
  {
    "[" + Items(xs) + "]"
  }

  /** The entries of `xs`, separated by `", "`. */
  function Items(xs: seq<int>): string
  {
    if xs == [] then ""
    else if |xs| == 1 then IntText(xs[0])
    else Items(xs[..|xs| - 1]) + ", " + IntText(xs[|xs| - 1])
  }
}
