/** The few pieces of Python's text handling that the converter relies on:
    a line as the list of fields `str.split()` gives, `int()` on one field,
    list indexing with negative indices, `str.join` and `[' '] * n`. */
module PyText {

  datatype Option<+T> = None | Some(value: T)

  /** One input line after `line.split()`: its whitespace-separated fields. */
  type Line = seq<string>

  /** A whole input file, one entry per line. */
  type Lines = seq<Line>

  predicate IsDigit(c: char) { '0' <= c <= '9' }

  predicate AllDigits(s: string) { forall i :: 0 <= i < |s| ==> IsDigit(s[i]) }

  function DigitValue(c: char): nat
    requires IsDigit(c)
  {
    (c as int) - ('0' as int)
  }

  /** The value of a string of decimal digits, most significant first. */
  function Decimal(s: string): nat
    requires AllDigits(s)
    decreases |s|
  {
    if s == [] then 0 else 10 * Decimal(s[..|s| - 1]) + DigitValue(s[|s| - 1])
  }

  /** `int(s)` for a field produced by `str.split()`: an optional sign followed by
      one or more ASCII digits. `None` stands for the ValueError Python raises. */
  function ParseInt(s: string): Option<int>
  {
    if |s| > 0 && (s[0] == '+' || s[0] == '-') then
      if |s| > 1 && AllDigits(s[1..]) then
        var v: int := Decimal(s[1..]);
        Some(if s[0] == '-' then -v else v)
      else None
    else if |s| > 0 && AllDigits(s) then Some(Decimal(s))
    else None
  }

  function DigitChar(d: nat): (c: char)
    requires d < 10
    ensures IsDigit(c) && DigitValue(c) == d
  {
    ('0' as int + d) as char
  }

  /** `str(n)` for a natural number. */
  function ShowNat(n: nat): (s: string)
    ensures |s| > 0 && AllDigits(s)
    decreases n
  {
    if n < 10 then [DigitChar(n)] else ShowNat(n / 10) + [DigitChar(n % 10)]
  }

  /** `str(n)` for any integer. */
  function Show(n: int): string
  {
    if n < 0 then "-" + ShowNat(-n) else ShowNat(n)
  }

  lemma {:induction false} DecimalOfShowNat(n: nat)
    ensures Decimal(ShowNat(n)) == n
    decreases n
  {
    if n >= 10 {
      var s := ShowNat(n);
      DecimalOfShowNat(n / 10);
      assert s[..|s| - 1] == ShowNat(n / 10);
    }
  }

  /** `int(str(n)) == n`: the parser reads back every integer Python prints. */
  lemma ParseIntShow(n: int)
    ensures ParseInt(Show(n)) == Some(n)
  {
    if n < 0 {
      DecimalOfShowNat(-n);
      assert Show(n)[1..] == ShowNat(-n);
    } else {
      DecimalOfShowNat(n);
    }
  }

  /** `xs[k]` for a list of length `n`: a negative `k` counts from the end.
      `None` stands for the IndexError Python raises. */
  function PyIndex(n: nat, k: int): (r: Option<nat>)
    ensures r.Some? ==> r.value < n
  {
    if 0 <= k < n then Some(k) else if -(n as int) <= k < 0 then Some(k + n) else None
  }

  /** `''.join([' '] * n)`: `n` spaces, and none at all when `n <= 0`. */
  function Spaces(n: int): (s: string)
    ensures |s| == if n > 0 then n else 0
    ensures forall i :: 0 <= i < |s| ==> s[i] == ' '
    decreases n
  {
    if n <= 0 then "" else " " + Spaces(n - 1)
  }

  /** `sep.join(parts)`. */
  function Join(sep: string, parts: seq<string>): string
    decreases |parts|
  {
    if |parts| == 0 then ""
    else if |parts| == 1 then parts[0]
    else parts[0] + sep + Join(sep, parts[1..])
  }

  /** The string of a Python list of strings written one after another. */
  function Concat(parts: seq<string>): string
    decreases |parts|
  {
    if parts == [] then "" else parts[0] + Concat(parts[1..])
  }

  /** `int(line[1])` on an ID line; `None` when it raises (IndexError or ValueError). */
  function IdOf(line: Line): Option<int>
  {
    if |line| < 2 then None else ParseInt(line[1])
  }
}
