/** The few pieces of Python's string formatting the core relies on:
    `str(int)`, `hex(int)`, `str.join` and `os.path.join`. */
module Text {

  /** The digit characters Python prints, lower-case for hexadecimal. */
  function DigitChar(d: nat): char
    requires d < 16
  {
    if d < 10 then ('0' as int + d) as char else ('a' as int + d - 10) as char
  }

  /** Value of a digit character printed by DigitChar. */
  function DigitValue(c: char): nat
  {
    if '0' <= c <= '9' then (c - '0') as nat
    else if 'a' <= c <= 'f' then (c - 'a') as nat + 10
    else 0
  }

  /** Digits of n in the given base, most significant first, with no
      leading zero (a single "0" for zero). */
  function Digits(n: nat, base: nat): (s: string)
    requires 2 <= base <= 16
    ensures |s| >= 1
    ensures |s| > 1 ==> s[0] != '0'
    decreases n
  {
    if n < base then [DigitChar(n)] else Digits(n / base, base) + [DigitChar(n % base)]
  }

  /** Reads back a digit string in the given base. */
  function ValueOf(s: string, base: nat): nat
  {
    if s == [] then 0 else ValueOf(s[..|s| - 1], base) * base + DigitValue(s[|s| - 1])
  }

  /** Printing and reading back digits are inverse: the rendered numbers in
      a command line identify the numbers they came from. */
  lemma {:induction false} DigitsRoundTrip(n: nat, base: nat)
    requires base == 10 || base == 16
    ensures ValueOf(Digits(n, base), base) == n
    decreases n
  {
    if n < base {
      assert Digits(n, base)[..0] == [];
      DigitValueOfChar(n);
    } else if base == 10 {
      DigitsStep(n, 10, n / 10, n % 10);
      DigitsRoundTrip(n / 10, 10);
    } else {
      DigitsStep(n, 16, n / 16, n % 16);
      DigitsRoundTrip(n / 16, 16);
    }
  }

  /** One step of the round trip: the last digit of n is n % base and the
      others are the digits of n / base. */
  lemma DigitsStep(n: nat, base: nat, q: nat, r: nat)
    requires 2 <= base <= 16 && n >= base && q == n / base && r == n % base
    ensures ValueOf(Digits(n, base), base) == ValueOf(Digits(q, base), base) * base + r
  {
    var t := Digits(q, base);
    assert Digits(n, base) == t + [DigitChar(r)];
    ValueOfSnoc(t, DigitChar(r), base);
    DigitValueOfChar(r);
  }

  lemma ValueOfSnoc(t: string, c: char, base: nat)
    ensures ValueOf(t + [c], base) == ValueOf(t, base) * base + DigitValue(c)
  {
    assert (t + [c])[..|t|] == t;
  }

  lemma DigitValueOfChar(d: nat)
    requires d < 16
    ensures DigitValue(DigitChar(d)) == d
  {}

  /** Python `str(i)` for an integer. */
  function IntToString(i: int): string
  {
    if i < 0 then "-" + Digits(-i, 10) else Digits(i, 10)
  }

  /** Python `hex(n)` for a non-negative integer. */
  function Hex(n: nat): string
  {
    "0x" + Digits(n, 16)
  }

  /** Python `sep.join(parts)`. */
  function Join(sep: string, parts: seq<string>): string
  {
    if parts == [] then ""
    else if |parts| == 1 then parts[0]
    else parts[0] + sep + Join(sep, parts[1..])
  }

  /** Python `os.path.join(dir, name)` for two components: an absolute name
      replaces the directory, otherwise a `/` is inserted unless the
      directory is empty or already ends with one. */
  function PathJoin(dir: string, name: string): (r: string)
    ensures |r| >= |name| && r[|r| - |name|..] == name
    ensures !(|name| > 0 && name[0] == '/') ==> |r| >= |dir| && r[..|dir|] == dir
  {
    if |name| > 0 && name[0] == '/' then name
    else if dir == [] || dir[|dir| - 1] == '/' then dir + name
    else dir + "/" + name
  }

  /** `sub` occurs in `text` (Python's `sub in text`). */
  predicate Contains(text: string, sub: string)
  {
    exists i :: 0 <= i <= |text| - |sub| && OccursAt(text, sub, i)
  }

  predicate OccursAt(text: string, sub: string, i: int)
  {
    0 <= i <= |text| - |sub| && text[i..i + |sub|] == sub
  }

  /** Where the i-th part starts in `sep.join(parts)`: after each earlier
      part and its separator. */
  function JoinOffset(sep: string, parts: seq<string>, i: nat): nat
    requires i <= |parts|
  {
    if i == 0 then 0 else JoinOffset(sep, parts, i - 1) + |parts[i - 1]| + |sep|
  }

  lemma {:induction false} JoinOffsetTail(sep: string, parts: seq<string>, i: nat)
    requires 1 <= i <= |parts|
    ensures JoinOffset(sep, parts, i) == |parts[0]| + |sep| + JoinOffset(sep, parts[1..], i - 1)
    decreases i
  {
    if i > 1 {
      JoinOffsetTail(sep, parts, i - 1);
    }
  }

  /** Every part occurs in `sep.join(parts)` at its offset, so the parts
      appear in order, each separated from the next by `sep`. */
  lemma {:induction false} JoinOccurs(sep: string, parts: seq<string>, i: nat)
    requires i < |parts|
    ensures OccursAt(Join(sep, parts), parts[i], JoinOffset(sep, parts, i))
    decreases |parts|
  {
    var j := Join(sep, parts);
    if |parts| == 1 {
      assert j == parts[0];
    } else if i == 0 {
      assert j == parts[0] + sep + Join(sep, parts[1..]);
      assert j[..|parts[0]|] == parts[0];
    } else {
      JoinOccurs(sep, parts[1..], i - 1);
      JoinOffsetTail(sep, parts, i);
      OccursShift(parts[0] + sep, Join(sep, parts[1..]), parts[i], JoinOffset(sep, parts[1..], i - 1));
    }
  }

  /** Each part is followed in `sep.join(parts)` by the separator and then
      by the next part. */
  lemma {:induction false} JoinAdjacent(sep: string, parts: seq<string>, i: nat)
    requires 0 < i < |parts|
    ensures OccursAt(Join(sep, parts), parts[i - 1] + sep + parts[i], JoinOffset(sep, parts, i - 1))
    decreases |parts|
  {
    var rest := Join(sep, parts[1..]);
    assert Join(sep, parts) == parts[0] + sep + rest;
    if i == 1 {
      JoinOccurs(sep, parts[1..], 0);
      var pair := parts[0] + sep + parts[1];
      assert Join(sep, parts)[..|pair|] == parts[0] + sep + rest[..|parts[1]|];
    } else {
      JoinAdjacent(sep, parts[1..], i - 1);
      JoinOffsetTail(sep, parts, i - 1);
      OccursShift(parts[0] + sep, rest, parts[i - 1] + sep + parts[i], JoinOffset(sep, parts[1..], i - 2));
    }
  }

  /** An occurrence in `b` is an occurrence in `a + b`, moved by `|a|`. */
  lemma OccursShift(a: string, b: string, sub: string, k: int)
    requires OccursAt(b, sub, k)
    ensures OccursAt(a + b, sub, |a| + k)
  {
    assert (a + b)[|a| + k..|a| + k + |sub|] == b[k..k + |sub|];
  }

  lemma ContainsInfix(before: string, sub: string, after: string)
    ensures Contains(before + sub + after, sub)
  {
    var t := before + sub + after;
    assert OccursAt(t, sub, |before|);
  }
}
