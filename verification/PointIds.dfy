/** Chunk ids and the 63-bit point numbers derived from them by wrapping arithmetic. */
module PointIds {
  const TWO63: nat := 0x8000_0000_0000_0000
  const TWO64: nat := 0x1_0000_0000_0000_0000

  /** hexVal of byte(ch): the rune is cut to its low byte, non-hex bytes count as zero. */
  function HexVal(c: char): (v: nat)
    ensures v < 16
  {
    var b := c as int % 256;
    if '0' as int <= b <= '9' as int then b - '0' as int
    else if 'a' as int <= b <= 'f' as int then b - 'a' as int + 10
    else if 'A' as int <= b <= 'F' as int then b - 'A' as int + 10
    else 0
  }

  /** The low byte of the rune is read as a hex digit, in either case. */
  lemma HexDigit(c: char, v: nat)
    requires v < 16
    requires (c as int % 256) as char == "0123456789abcdef"[v] || (c as int % 256) as char == "0123456789ABCDEF"[v]
    ensures HexVal(c) == v
  {
  }

  /** What is no hex digit counts as zero. */
  lemma OnlyHexDigits(c: char)
    ensures var low, v := (c as int % 256) as char, HexVal(c);
      v == 0 || low == "0123456789abcdef"[v] || low == "0123456789ABCDEF"[v]
  {
  }

  /** The unbounded base-16 numeral of the characters that are not dashes. */
  function Numeral(id: string): nat {
    if id == "" then 0
    else
      var front, last := id[..|id| - 1], id[|id| - 1];
      if last == '-' then Numeral(front) else 16 * Numeral(front) + HexVal(last)
  }

  function PointId(id: string): nat { Numeral(id) % TWO63 }

  lemma WrapStep(n: nat, v: nat)
    ensures (n % TWO64 * 16 + v) % TWO64 == (16 * n + v) % TWO64
  {
    var q := n / TWO64;
    assert n == q * TWO64 + n % TWO64;
    assert 16 * n + v == 16 * q * TWO64 + (16 * (n % TWO64) + v);
  }

  lemma DropMultiple(q: nat, z: nat)
    ensures (TWO64 * q + z) % TWO63 == z % TWO63
  {
    var k := 2 * q;
    assert (k * TWO63 + z) % TWO63 == z % TWO63;
  }

  lemma WrapEnd(n: nat)
    ensures n % TWO64 % TWO63 == n % TWO63
  {
    DropMultiple(n / TWO64, n % TWO64);
  }

  /** The wrapping loop computes the unbounded numeral modulo 2^63. */
  method IdFromUUID(id: string) returns (h: nat)
    ensures h == PointId(id) && h == Numeral(id) % 0x8000_0000_0000_0000
  {
    hide HexVal;
    h := 0;
    for i := 0 to |id|
      invariant h == Numeral(id[..i]) % TWO64
    {
      assert id[..i + 1][..i] == id[..i];
      if id[i] == '-' { continue; }
      WrapStep(Numeral(id[..i]), HexVal(id[i]));
      h := (h * 16 + HexVal(id[i])) % TWO64;
    }
    assert id[..|id|] == id;
    WrapEnd(Numeral(id));
    h := h % TWO63;
  }

  // --- Which characters matter -------------------------------------------------------------

  function Digits(id: string): nat {
    if id == "" then 0 else Digits(id[..|id| - 1]) + if id[|id| - 1] == '-' then 0 else 1
  }

  function Pow16(n: nat): nat { if n == 0 then 1 else 16 * Pow16(n - 1) }

  lemma Distribute(x: nat, p: nat, n: nat)
    ensures 16 * (x * p + n) == x * (16 * p) + 16 * n
  {
    assert x * (16 * p) == 16 * (x * p);
  }

  lemma {:induction false} NumeralJoins(a: string, b: string)
    ensures Numeral(a + b) == Numeral(a) * Pow16(Digits(b)) + Numeral(b)
  {
    if b == "" {
      assert a + b == a;
    } else {
      var front := b[..|b| - 1];
      assert (a + b)[..|a + b| - 1] == a + front;
      NumeralJoins(a, front);
      assert (a + b)[|a + b| - 1] == b[|b| - 1];
      Distribute(Numeral(a), Pow16(Digits(front)), Numeral(front));
    }
  }

  lemma {:induction false} Pow16Has64Bits(n: nat)
    requires n >= 16
    ensures Pow16(n) == TWO64 * Pow16(n - 16)
  {
    if n == 16 {
      assert Pow16(4) == 0x1_0000;
      assert Pow16(8) == 0x1_0000_0000;
      assert Pow16(12) == 0x1_0000_0000_0000;
      assert Pow16(16) == TWO64;
    } else {
      Pow16Has64Bits(n - 1);
    }
  }

  lemma Regroup(x: nat, y: nat)
    ensures x * (TWO64 * y) == TWO64 * (x * y)
  {
  }

  /** Only the last sixteen digits matter. */
  lemma OnlyLastDigitsMatter(prefix: string, tail: string)
    requires Digits(tail) >= 16
    ensures PointId(prefix + tail) == PointId(tail)
  {
    NumeralJoins(prefix, tail);
    Pow16Has64Bits(Digits(tail));
    Regroup(Numeral(prefix), Pow16(Digits(tail) - 16));
    DropMultiple(Numeral(prefix) * Pow16(Digits(tail) - 16), Numeral(tail));
  }

  // --- Chunk ids -----------------------------------------------------------------------------

  function DigitChar(d: nat): (c: char)
    requires d < 10
    ensures HexVal(c) == d && c != '-'
  {
    '0' + d as char
  }

  function Decimal(n: nat): string {
    if n < 10 then [DigitChar(n)] else Decimal(n / 10) + [DigitChar(n % 10)]
  }

  /** fmt's %04d. */
  function Format04(i: nat): string {
    if i < 10000 then [DigitChar(i / 1000), DigitChar(i / 100 % 10), DigitChar(i / 10 % 10), DigitChar(i % 10)]
    else Decimal(i)
  }

  function ChunkId(owner: string, i: nat): string { owner + "-" + Format04(i) }

  /** The value a decimal text denotes. */
  function Denoted(s: string): int {
    if s == "" then 0 else 10 * Denoted(s[..|s| - 1]) + (s[|s| - 1] as int - '0' as int)
  }

  /** The suffix is the index in decimal digits, padded with zeros to four and no further. */
  lemma FormatDenotes(i: nat)
    ensures Denoted(Format04(i)) == i && |Format04(i)| >= 4
    ensures forall k | 0 <= k < |Format04(i)| :: '0' <= Format04(i)[k] <= '9'
    ensures |Format04(i)| > 4 ==> Format04(i)[0] != '0'
  {
    if i < 10000 {
      var f := Format04(i);
      FromDigits(i);
      assert f[..3][..2][..1] == [f[0]] && f[..3][..2] == f[..2] && f[..1][..0] == "";
      assert Denoted(f[..1]) == i / 1000;
      assert Denoted(f[..2]) == 10 * (i / 1000) + i / 100 % 10;
    } else {
      DecimalDenotes(i);
      LongDecimal(i);
    }
  }

  lemma {:induction false} DecimalDenotes(n: nat)
    ensures Denoted(Decimal(n)) == n && Decimal(n) != "" && (n > 0 ==> Decimal(n)[0] != '0')
    ensures forall k | 0 <= k < |Decimal(n)| :: '0' <= Decimal(n)[k] <= '9'
  {
    if n >= 10 {
      DecimalDenotes(n / 10);
      var front := Decimal(n / 10);
      assert Decimal(n)[..|front|] == front;
    }
  }

  lemma LongDecimal(n: nat)
    requires n >= 1000
    ensures |Decimal(n)| >= 4
  {
    LongerDecimal(n);
    LongerDecimal(n / 10);
    LongerDecimal(n / 10 / 10);
    hide Decimal;
  }

  lemma LongerDecimal(n: nat)
    ensures n >= 10 ==> |Decimal(n)| == |Decimal(n / 10)| + 1
    ensures |Decimal(n)| >= 1
  {
  }

  lemma NumeralSnoc(s: string, c: char)
    ensures Numeral(s + [c]) == if c == '-' then Numeral(s) else 16 * Numeral(s) + HexVal(c)
  {
    assert (s + [c])[..|s|] == s;
  }

  function HexOfDecimal(i: nat): nat
    requires i < 10000
  {
    4096 * (i / 1000) + 256 * (i / 100 % 10) + 16 * (i / 10 % 10) + i % 10
  }

  lemma ChunkNumeral(owner: string, i: nat)
    requires i < 10000
    ensures Numeral(ChunkId(owner, i)) == 0x1_0000 * Numeral(owner) + HexOfDecimal(i)
  {
    var f := Format04(i);
    var s0 := owner + "-";
    NumeralSnoc(owner, '-');
    NumeralSnoc(s0, f[0]);
    NumeralSnoc(s0 + [f[0]], f[1]);
    NumeralSnoc(s0 + [f[0]] + [f[1]], f[2]);
    NumeralSnoc(s0 + [f[0]] + [f[1]] + [f[2]], f[3]);
    assert ChunkId(owner, i) == s0 + [f[0]] + [f[1]] + [f[2]] + [f[3]];
  }

  lemma SameDigits(a: nat, b: nat, c: nat, d: nat, a': nat, b': nat, c': nat, d': nat)
    requires b < 10 && c < 10 && d < 10 && b' < 10 && c' < 10 && d' < 10
    requires 4096 * a + 256 * b + 16 * c + d == 4096 * a' + 256 * b' + 16 * c' + d'
    ensures a == a' && b == b' && c == c' && d == d'
  {
  }

  lemma FromDigits(i: nat)
    ensures i == 1000 * (i / 1000) + 100 * (i / 100 % 10) + 10 * (i / 10 % 10) + i % 10
  {
    var t := i / 10;
    assert i / 100 == t / 10 && i / 1000 == t / 10 / 10;
  }

  lemma HexOfDecimalInjective(i: nat, j: nat)
    requires i < 10000 && j < 10000 && HexOfDecimal(i) == HexOfDecimal(j)
    ensures i == j
  {
    SameDigits(i / 1000, i / 100 % 10, i / 10 % 10, i % 10, j / 1000, j / 100 % 10, j / 10 % 10, j % 10);
    FromDigits(i);
    FromDigits(j);
  }

  lemma SmallResidues(a: nat, x: nat, y: nat)
    requires x < 0x1_0000 && y < 0x1_0000 && (a + x) % TWO63 == (a + y) % TWO63
    ensures x == y
  {
  }

  /** Two chunks of one owner never share a point, whatever the owner's name. */
  lemma ChunkPointsDiffer(owner: string, i: nat, j: nat)
    requires i < 10000 && j < 10000 && i != j
    ensures PointId(ChunkId(owner, i)) != PointId(ChunkId(owner, j))
  {
    ChunkNumeral(owner, i);
    ChunkNumeral(owner, j);
    if PointId(ChunkId(owner, i)) == PointId(ChunkId(owner, j)) {
      SmallResidues(0x1_0000 * Numeral(owner), HexOfDecimal(i), HexOfDecimal(j));
      HexOfDecimalInjective(i, j);
    }
  }

  /** The four-digit suffix is what makes this work: with an owner that ends in twelve ones,
      chunk 10000 takes the point of chunk 0. */
  lemma ChunkTenThousandClashes(prefix: string)
    ensures PointId(ChunkId(prefix + "111111111111", 0)) == PointId(ChunkId(prefix + "111111111111", 10000))
  {
    var owner := prefix + "111111111111";
    var a, b := Numeral(ChunkId(owner, 0)), Numeral(ChunkId(owner, 10000));
    TwelveOnes(prefix);
    ChunkNumeral(owner, 0);
    FiveDigits(owner);
    hide Numeral, ChunkId;
    var p := Numeral(prefix);
    SameResidue(a, 2 * p, 0x1111_1111_1111_0000);
    SameResidue(b, 32 * p + 2, 0x1111_1111_1111_0000);
  }

  ghost predicate AllDiffer(owner: string, n: nat) {
    forall i, j | 0 <= i < j < n :: PointId(ChunkId(owner, i)) != PointId(ChunkId(owner, j))
  }

  /** So ten thousand chunks is exactly how many are safe for every owner. */
  lemma TenThousandAreSafe(n: nat)
    ensures (forall owner :: AllDiffer(owner, n)) <==> n <= 10000
  {
    hide PointId, ChunkId;
    if n <= 10000 {
      forall owner: string ensures AllDiffer(owner, n) {
        forall i, j | 0 <= i < j < n { ChunkPointsDiffer(owner, i, j); }
      }
    } else {
      ChunkTenThousandClashes("");
      assert "" + "111111111111" == "111111111111";
      assert !AllDiffer("111111111111", n);
    }
  }

  lemma SameResidue(a: nat, k: nat, c: nat)
    requires a == k * TWO63 + c && c < TWO63
    ensures a % TWO63 == c
  {
  }

  lemma TwelveOnes(prefix: string)
    ensures Numeral(prefix + "111111111111") == 0x1_0000_0000_0000 * Numeral(prefix) + 0x1111_1111_1111
  {
    FourOnes(prefix);
    FourOnes(prefix + "1111");
    FourOnes(prefix + "1111" + "1111");
    assert prefix + "1111" + "1111" + "1111" == prefix + "111111111111";
  }

  lemma FourOnes(s: string)
    ensures Numeral(s + "1111") == 0x1_0000 * Numeral(s) + 0x1111
  {
    NumeralSnoc(s, '1');
    NumeralSnoc(s + "1", '1');
    NumeralSnoc(s + "1" + "1", '1');
    NumeralSnoc(s + "1" + "1" + "1", '1');
    assert s + "1111" == s + "1" + "1" + "1" + "1";
  }

  lemma FiveDigits(owner: string)
    ensures Numeral(ChunkId(owner, 10000)) == 0x10_0000 * Numeral(owner) + 0x1_0000
  {
    assert Decimal(1) == "1" && Decimal(10) == "10" && Decimal(100) == "100";
    assert Decimal(1000) == "1000" && Decimal(10000) == "10000";
    var s := owner + "-";
    NumeralSnoc(owner, '-');
    NumeralSnoc(s, '1');
    NumeralSnoc(s + "1", '0');
    NumeralSnoc(s + "1" + "0", '0');
    NumeralSnoc(s + "1" + "0" + "0", '0');
    NumeralSnoc(s + "1" + "0" + "0" + "0", '0');
    assert ChunkId(owner, 10000) == s + "1" + "0" + "0" + "0" + "0";
  }
}
