/**
 * The resident-chunk map of src/9.js is keyed by strings: getChunkKey writes
 * a chunk coordinate as `${chunkX},${chunkZ}`, and the removal loop of
 * updateChunks reads a key back with key.split(',').map(Number). This module
 * models both directions and proves that reading a key gives back the
 * coordinate it was written from, negative coordinates included.
 */
module ChunkKey {
  import opened Prelude

  predicate IsDigit(c: char) {
    '0' <= c <= '9'
  }

  predicate AllDigits(s: string) {
    forall i :: 0 <= i < |s| ==> IsDigit(s[i])
  }

  function DigitChar(d: nat): (c: char)
    requires d < 10
    ensures IsDigit(c)
  {
    ('0' as int + d) as char
  }

  function DigitValue(c: char): (d: nat)
    requires IsDigit(c)
    ensures d < 10
  {
    c as int - '0' as int
  }

  /** The decimal digits of n without leading zeros, as String(n) writes it. */
  function NatToString(n: nat): (s: string)
    ensures |s| >= 1 && AllDigits(s)
    decreases n
  {
    if n < 10 then [DigitChar(n)] else NatToString(n / 10) + [DigitChar(n % 10)]
  }

  /** String(n) for an integer n: a minus sign before the digits of -n when n < 0. */
  function IntToString(n: int): string {
    if n < 0 then "-" + NatToString(-n) else NatToString(n)
  }

  /** getChunkKey(chunkX, chunkZ). */
  function Key(chunkX: int, chunkZ: int): string {
    IntToString(chunkX) + "," + IntToString(chunkZ)
  }

  /**
   * String.prototype.split with a one-character separator: the pieces between
   * separators, including empty ones ("".split(',') is [""]).
   */
  function Split(s: string, sep: char): (parts: seq<string>)
    ensures |parts| >= 1
    decreases |s|
  {
    if s == [] then [[]]
    else
      var rest := Split(s[1..], sep);
      if s[0] == sep then [[]] + rest else [[s[0]] + rest[0]] + rest[1..]
  }

  /** The value of a string of decimal digits. */
  function DigitsValue(s: string): nat
    requires AllDigits(s)
    decreases |s|
  {
    if s == [] then 0 else DigitsValue(s[..|s| - 1]) * 10 + DigitValue(s[|s| - 1])
  }

  /**
   * Number(s) on the pieces a key can be split into: the empty string reads
   * as 0, decimal digits with an optional leading minus sign read as that
   * integer, and any other piece a key can give reads as NaN (None). Number
   * also reads forms such as "+5", " 7", "1e3" and "0x10" as numbers; they
   * read as None here, which is sound only because no key contains them.
   */
  function ToNumber(s: string): Option<int> {
    if s == [] then Some(0)
    else if s[0] == '-' && |s| > 1 && AllDigits(s[1..]) then Some(0 - DigitsValue(s[1..]) as int)
    else if AllDigits(s) then Some(DigitsValue(s))
    else None
  }

  /**
   * `const [x, z] = key.split(',').map(Number)`: the first two pieces read as
   * numbers; None when a piece is missing or reads as NaN.
   */
  function Decode(key: string): Option<(int, int)> {
    var parts := Split(key, ',');
    if |parts| < 2 then None
    else
      match (ToNumber(parts[0]), ToNumber(parts[1]))
      case (Some(x), Some(z)) => Some((x, z))
      case _ => None
  }

  lemma {:induction false} DigitsOfNatToString(n: nat)
    ensures DigitsValue(NatToString(n)) == n
    decreases n
  {
    var s := NatToString(n);
    if n >= 10 {
      DigitsOfNatToString(n / 10);
      assert s[..|s| - 1] == NatToString(n / 10);
    }
  }

  lemma IntToStringHasNoComma(n: int)
    ensures ',' !in IntToString(n)
  {
    var s := IntToString(n);
    if n < 0 {
      assert s == "-" + NatToString(-n);
      assert forall i :: 1 <= i < |s| ==> s[i] == NatToString(-n)[i - 1];
    }
  }

  lemma {:induction false} NumberOfIntToString(n: int)
    ensures ToNumber(IntToString(n)) == Some(n)
  {
    var s := IntToString(n);
    if n < 0 {
      DigitsOfNatToString(-n);
      assert s[1..] == NatToString(-n);
    } else {
      DigitsOfNatToString(n);
      assert IsDigit(s[0]);
    }
  }

  lemma {:induction false} SplitWithoutSeparator(s: string, sep: char)
    requires sep !in s
    ensures Split(s, sep) == [s]
    decreases |s|
  {
    if s != [] {
      SplitWithoutSeparator(s[1..], sep);
      assert [s[0]] + s[1..] == s;
    }
  }

  lemma {:induction false} SplitAtFirstSeparator(a: string, sep: char, b: string)
    requires sep !in a
    ensures Split(a + [sep] + b, sep) == [a] + Split(b, sep)
    decreases |a|
  {
    var s := a + [sep] + b;
    if a == [] {
      assert s[1..] == b;
    } else {
      assert s[1..] == a[1..] + [sep] + b;
      SplitAtFirstSeparator(a[1..], sep, b);
      assert [a[0]] + a[1..] == a;
    }
  }

  /** Reading a key gives back the coordinate it was written from. */
  lemma {:induction false} KeyRoundTrip(chunkX: int, chunkZ: int)
    ensures Decode(Key(chunkX, chunkZ)) == Some((chunkX, chunkZ))
  {
    var a, b := IntToString(chunkX), IntToString(chunkZ);
    IntToStringHasNoComma(chunkX);
    IntToStringHasNoComma(chunkZ);
    SplitAtFirstSeparator(a, ',', b);
    SplitWithoutSeparator(b, ',');
    assert Key(chunkX, chunkZ) == a + [','] + b;
    NumberOfIntToString(chunkX);
    NumberOfIntToString(chunkZ);
  }

  /** Distinct coordinates get distinct keys, so the map holds one chunk per coordinate. */
  lemma {:induction false} KeyInjective(x1: int, z1: int, x2: int, z2: int)
    ensures Key(x1, z1) == Key(x2, z2) <==> (x1, z1) == (x2, z2)
  {
    KeyRoundTrip(x1, z1);
    KeyRoundTrip(x2, z2);
  }
}
