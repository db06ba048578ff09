/**
 * String helpers shared by the model: substring search, prefix and suffix
 * tests, C-string views, the `%x` / `std::to_string` number formatting the
 * recorder uses in its error messages, and JavaScript's string `replace`
 * and array `join` and `filter` as the host code uses them.
 */
module Text {

  datatype Option<T> = None | Some(value: T)

  /** `p` occurs in `s` starting at index `j`. */
  predicate OccursAt(s: string, p: string, j: nat)
  {
    j + |p| <= |s| && s[j..j + |p|] == p
  }

  /** The first index at or after `from` where `p` occurs in `s` (`std::find`, `indexOf`). */
  function FindFrom(s: string, p: string, from: nat): (r: Option<nat>)
    requires from <= |s|
    ensures r.Some? ==> from <= r.value && OccursAt(s, p, r.value)
    ensures r.Some? ==> forall j :: from <= j < r.value ==> !OccursAt(s, p, j)
    ensures r.None? ==> forall j :: from <= j ==> !OccursAt(s, p, j)
    decreases |s| - from
  {
    if OccursAt(s, p, from) then Some(from)
    else if from == |s| then None
    else FindFrom(s, p, from + 1)
  }

  function IndexOf(s: string, p: string): (r: Option<nat>)
    ensures r.Some? ==> OccursAt(s, p, r.value)
    ensures r.Some? ==> forall j :: 0 <= j < r.value ==> !OccursAt(s, p, j)
    ensures r.None? ==> forall j :: 0 <= j ==> !OccursAt(s, p, j)
  {
    FindFrom(s, p, 0)
  }

  predicate Contains(s: string, p: string)
  {
    IndexOf(s, p).Some?
  }

  predicate StartsWith(s: string, p: string)
  {
    |p| <= |s| && s[..|p|] == p
  }

  predicate EndsWith(s: string, p: string)
  {
    |p| <= |s| && s[|s| - |p|..] == p
  }

  /**
   * JavaScript's `s.replace(pattern, replacement)` with a string pattern:
   * only the first occurrence is replaced.
   */
  function ReplaceFirst(s: string, pattern: string, replacement: string): (r: string)
  {
    match IndexOf(s, pattern)
    case None => s
    case Some(i) => s[..i] + replacement + s[i + |pattern|..]
  }

  /** The text before the first occurrence of `sep`, or all of `s` (`s.split(sep)[0]`). */
  function Before(s: string, sep: string): (r: string)
  {
    match IndexOf(s, sep)
    case None => s
    case Some(i) => s[..i]
  }

  /** The view a C function taking `const char *` has of `s`: up to the first NUL. */
  function CStr(s: string): (r: string)
  {
    match IndexOf(s, "\0")
    case None => s
    case Some(i) => s[..i]
  }

  /** JavaScript's `Array.prototype.join` (and an array's `toString` with `sep == ","`). */
  function Join(items: seq<string>, sep: string): string
  {
    if |items| == 0 then ""
    else if |items| == 1 then items[0]
    else Join(items[..|items| - 1], sep) + sep + items[|items| - 1]
  }

  /** JavaScript's `Array.prototype.filter`: the elements that pass, in their order. */
  function Filter<T(!new)>(xs: seq<T>, keep: T -> bool): (r: seq<T>)
    ensures |r| <= |xs|
    ensures forall x :: x in r <==> x in xs && keep(x)
  {
    if |xs| == 0 then []
    else
      var init := xs[..|xs| - 1];
      assert xs == init + [xs[|xs| - 1]];
      Filter(init, keep) + (if keep(xs[|xs| - 1]) then [xs[|xs| - 1]] else [])
  }

  // ---------------------------------------------------------------------
  // Number formatting: `%x` in printf and `std::to_string`.

  function DigitChar(d: nat): (c: char)
    requires d < 16
  {
    if d < 10 then ('0' as int + d) as char else ('a' as int + d - 10) as char
  }

  function DigitValue(c: char): int
  {
    if '0' <= c <= '9' then c as int - '0' as int
    else if 'a' <= c <= 'f' then c as int - 'a' as int + 10
    else -1
  }

  predicate IsDigit(c: char, base: nat)
  {
    0 <= DigitValue(c) < base
  }

  lemma DigitCharValue(d: nat)
    requires d < 16
    ensures DigitValue(DigitChar(d)) == d
  {
  }

  lemma DivModBase(n: nat, base: nat)
    requires 2 <= base && n >= base
    ensures 0 < n / base < n && 0 <= n % base < base
    ensures n == (n / base) * base + n % base
  {
  }

  /** `n` written in `base` with lower-case digits and no leading zeros. */
  function Radix(n: nat, base: nat): (s: string)
    requires 2 <= base <= 16
    ensures |s| >= 1
    ensures forall i :: 0 <= i < |s| ==> IsDigit(s[i], base)
    ensures |s| > 1 ==> s[0] != '0'
    decreases n
  {
    if n < base then
      DigitCharValue(n);
      [DigitChar(n)]
    else
      DivModBase(n, base);
      DigitCharValue(n % base);
      Radix(n / base, base) + [DigitChar(n % base)]
  }

  function ParseRadix(s: string, base: nat): nat
    requires 2 <= base <= 16
    requires forall i :: 0 <= i < |s| ==> IsDigit(s[i], base)
  {
    if |s| == 0 then 0
    else
      var d := DigitValue(s[|s| - 1]);
      assert IsDigit(s[|s| - 1], base);
      ParseRadix(s[..|s| - 1], base) * base + d
  }

  /** Lower-case hexadecimal, as printf's `%x` writes an unsigned 32-bit value. */
  function Hex(n: nat): string
  {
    Radix(n, 16)
  }

  /** Decimal, as `std::to_string` and JavaScript template literals write a non-negative integer. */
  function Decimal(n: nat): string
  {
    Radix(n, 10)
  }

  /** Formatting is faithful: reading the digits back gives the number. */
  lemma {:induction false} RadixRoundTrip(n: nat, base: nat)
    requires 2 <= base <= 16
    ensures ParseRadix(Radix(n, base), base) == n
    decreases n
  {
    var s := Radix(n, base);
    if n < base {
      DigitCharValue(n);
      assert s[..0] == [];
    } else {
      DivModBase(n, base);
      DigitCharValue(n % base);
      RadixRoundTrip(n / base, base);
      assert s[..|s| - 1] == Radix(n / base, base);
      assert DigitValue(s[|s| - 1]) == n % base;
      assert ParseRadix(s, base) == ParseRadix(Radix(n / base, base), base) * base + n % base;
    }
  }

  /** Two different numbers are never formatted alike. */
  lemma RadixInjective(m: nat, n: nat, base: nat)
    requires 2 <= base <= 16
    requires Radix(m, base) == Radix(n, base)
    ensures m == n
  {
    RadixRoundTrip(m, base);
    RadixRoundTrip(n, base);
  }

  /** Concatenation regroups freely. */
  lemma SeqAppendAssociates<T>(a: seq<T>, b: seq<T>, c: seq<T>)
    ensures a + b + c == a + (b + c)
  {
  }
}
