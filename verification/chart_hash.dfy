/**
 * `getChartHash`: the cache key of a rendered mermaid chart. The chart text is
 * read as UTF-16 code units; each unit updates a signed 32-bit accumulator
 * with `hash = (hash << 5) - hash + code; hash |= 0`, and the key is the
 * magnitude of the accumulator written in base 36.
 */
module ChartHash {
  import opened Common

  const TwoTo31: int := 0x8000_0000
  const TwoTo32: int := 0x1_0000_0000

  /** `ToInt32`: the signed 32-bit integer congruent to `x` modulo 2^32. */
  function Wrap32(x: int): (r: int)
    ensures -TwoTo31 <= r < TwoTo31
    ensures (x - r) % TwoTo32 == 0
    ensures -TwoTo31 <= x < TwoTo31 ==> r == x
  {
    (x + TwoTo31) % TwoTo32 - TwoTo31
  }

  /** Wrapping only depends on the value modulo 2^32. */
  lemma WrapCongruent(x: int, y: int)
    requires (x - y) % TwoTo32 == 0
    ensures Wrap32(x) == Wrap32(y)
  {
    var q := (x - y) / TwoTo32;
    assert x + TwoTo31 == (y + TwoTo31) + q * TwoTo32;
  }

  /** One step in the form the source writes it: a 32-bit shift, then `|0` of the sum. */
  function Step(hash: int, code: nat): (r: int)
    requires -TwoTo31 <= hash < TwoTo31
    ensures -TwoTo31 <= r < TwoTo31
  {
    var shifted := Wrap32(hash * 32);
    Wrap32(shifted - hash + code)
  }

  /** The step is `hash * 31 + code` wrapped to 32 bits. */
  lemma StepIsTimes31(hash: int, code: nat)
    requires -TwoTo31 <= hash < TwoTo31
    ensures Step(hash, code) == Wrap32(hash * 31 + code)
  {
    var shifted := Wrap32(hash * 32);
    assert ((shifted - hash + code) - (hash * 31 + code)) % TwoTo32 == 0 by {
      assert (shifted - hash + code) - (hash * 31 + code) == shifted - hash * 32;
    }
    WrapCongruent(shifted - hash + code, hash * 31 + code);
  }

  /** The accumulator after reading `units`, folding from the left. */
  function Hash(units: seq<nat>): (h: int)
    ensures -TwoTo31 <= h < TwoTo31
  {
    if units == [] then 0 else Step(Hash(units[..|units| - 1]), units[|units| - 1])
  }

  /** `Math.abs(hash).toString(36)`. */
  function Key(hash: int): (r: string)
    requires -TwoTo31 <= hash < TwoTo31
    ensures 1 <= |r| <= 6 && AllRadixDigits(r)
    ensures RadixValue(r) == Abs(hash)
  {
    var n := Abs(hash);
    assert Power36(6) == 2176782336;
    RadixLength(n, 6);
    NatToRadixValue(n);
    NatToRadix(n, 36)
  }

  function Abs(x: int): (r: nat)
    ensures r == x || r == -x
  {
    if x < 0 then -x else x
  }

  /** The value of a digit of `Number.prototype.toString(36)`. */
  function DigitValue(c: char): (d: nat)
    requires IsRadixDigit(c)
    ensures d < 36
  {
    if IsDigit(c) then c as int - '0' as int else c as int - 'a' as int + 10
  }

  lemma DigitRoundTrip(d: nat)
    requires d < 36
    ensures DigitValue(DigitChar(d)) == d
  {
  }

  /** The number a string of base-36 digits denotes. */
  function RadixValue(s: string): nat
    requires AllRadixDigits(s)
  {
    if s == [] then 0 else RadixValue(s[..|s| - 1]) * 36 + DigitValue(s[|s| - 1])
  }

  /** Reading back a rendered number gives the number. */
  lemma {:induction false} NatToRadixValue(n: nat)
    ensures RadixValue(NatToRadix(n, 36)) == n
    decreases n
  {
    var r := NatToRadix(n, 36);
    if n < 36 {
      assert r[..0] == [];
      DigitRoundTrip(n);
    } else {
      NatToRadixValue(n / 36);
      assert r[..|r| - 1] == NatToRadix(n / 36, 36);
      DigitRoundTrip(n % 36);
      assert RadixValue(r) == (n / 36) * 36 + n % 36;
    }
  }

  /** 36 to the power `e`. */
  function Power36(e: nat): (p: nat)
    ensures p >= 1
  {
    if e == 0 then 1 else 36 * Power36(e - 1)
  }

  /** A number below 36^k (k >= 1) takes at most `k` base-36 digits. */
  lemma {:induction false} RadixLength(n: nat, k: nat)
    requires k >= 1 && n < Power36(k)
    ensures |NatToRadix(n, 36)| <= k
    decreases k
  {
    if n >= 36 && k > 1 {
      assert n / 36 < Power36(k - 1);
      RadixLength(n / 36, k - 1);
    }
  }

  /** The cache key of a chart text. */
  function ChartKey(chart: string): (r: string)
    ensures 1 <= |r| <= 6 && AllRadixDigits(r)
  {
    Key(Hash(CodeUnits(chart)))
  }

  /** `getChartHash`, with the source's loop over the code units. */
  method GetChartHash(chart: string) returns (r: string)
    ensures r == ChartKey(chart)
    ensures 1 <= |r| <= 6 && AllRadixDigits(r)
    ensures RadixValue(r) == Abs(Hash(CodeUnits(chart)))
  {
    var units := CodeUnits(chart);
    var hash := 0;
    var i := 0;
    while i < |units|
      invariant 0 <= i <= |units|
      invariant hash == Hash(units[..i])
    {
      assert units[..i + 1][..i] == units[..i];
      var shifted := Wrap32(hash * 32);
      hash := Wrap32(shifted - hash + units[i]);
      i := i + 1;
    }
    assert units[..i] == units;
    r := Key(hash);
  }

  /** The empty chart hashes to "0". */
  lemma EmptyChartKey()
    ensures ChartKey("") == "0"
  {
  }

  /** Each code unit multiplies the accumulator by 31 and adds its code, modulo 2^32. */
  lemma HashStep(units: seq<nat>, code: nat)
    ensures Hash(units + [code]) == Wrap32(Hash(units) * 31 + code)
  {
    assert (units + [code])[..|units|] == units;
    StepIsTimes31(Hash(units), code);
  }

  /** A text of characters below U+10000 hashes its characters' codes directly. */
  lemma BasicTextUnits(s: string)
    requires forall k :: 0 <= k < |s| ==> (s[k] as int) < 0x1_0000
    ensures CodeUnits(s) == seq(|s|, k requires 0 <= k < |s| => s[k] as int)
  {
  }

  /** Two different charts can share a key: "Aa" and "BB" both reach 2112. */
  lemma KeysCollide()
    ensures ChartKey("Aa") == ChartKey("BB") && "Aa" != "BB"
  {
    assert CodeUnits("Aa") == [65, 97];
    assert CodeUnits("BB") == [66, 66];
    HashAfterTwo(65, 97);
    HashAfterTwo(66, 66);
  }

  /** The hash of two code units below 2^16. */
  lemma HashAfterTwo(a: nat, b: nat)
    requires a < 0x1_0000 && b < 0x1_0000
    ensures Hash([a, b]) == a * 31 + b
  {
    HashStep([], a);
    assert Hash([]) == 0;
    assert Hash([a]) == a;
    HashStep([a], b);
    assert [a] + [b] == [a, b];
  }
}
