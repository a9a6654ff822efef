/** Byte strings: UTF-8, big-endian integers, and length-prefixed fields. */
module Bytes {

  type byte = x: int | 0 <= x < 256

  const TWO_32 := 0x1_0000_0000
  const TWO_63 := 0x8000_0000_0000_0000
  const TWO_64 := 0x1_0000_0000_0000_0000

  function Utf8Char(c: char): (b: seq<byte>)
    ensures 1 <= |b| <= 4
  {
    var n := c as int;
    if n < 0x80 then [n]
    else if n < 0x800 then [0xC0 + n / 64, 0x80 + n % 64]
    else if n < 0x1_0000 then [0xE0 + n / 64 / 64, 0x80 + n / 64 % 64, 0x80 + n % 64]
    else [0xF0 + n / 64 / 64 / 64, 0x80 + n / 64 / 64 % 64, 0x80 + n / 64 % 64, 0x80 + n % 64]
  }

  /** `str::as_bytes` */
  function Utf8(s: string): seq<byte> {
    if s == [] then [] else Utf8Char(s[0]) + Utf8(s[1..])
  }

  function CharLen(c: char): nat {
    if c < '\U{80}' then 1 else if c < '\U{800}' then 2 else if c < '\U{10000}' then 3 else 4
  }

  /** `str::len` */
  function Utf8Len(s: string): nat {
    if s == [] then 0 else CharLen(s[0]) + Utf8Len(s[1..])
  }

  lemma {:induction false} Utf8LenIsLength(s: string)
    ensures |Utf8(s)| == Utf8Len(s)
  {
    if s != [] {
      assert |Utf8Char(s[0])| == CharLen(s[0]);
      Utf8LenIsLength(s[1..]);
    }
  }

  lemma Utf8CharPrefixFree(a: char, b: char, x: seq<byte>, y: seq<byte>)
    requires Utf8Char(a) + x == Utf8Char(b) + y
    ensures a == b && x == y
  {
    var ea, eb := Utf8Char(a), Utf8Char(b);
    var l, r := ea + x, eb + y;
    assert ea[0] == l[0] == r[0] == eb[0];
    assert |ea| == |eb|;
    assert ea == l[..|ea|] == r[..|eb|] == eb;
    assert x == l[|ea|..] && y == r[|eb|..];
  }

  lemma {:induction false} Utf8Injective(s: string, t: string)
    requires Utf8(s) == Utf8(t)
    ensures s == t
  {
    if s != [] && t != [] {
      Utf8CharPrefixFree(s[0], t[0], Utf8(s[1..]), Utf8(t[1..]));
      Utf8Injective(s[1..], t[1..]);
      assert s == [s[0]] + s[1..] && t == [t[0]] + t[1..];
    }
  }

  /** `to_be_bytes` of an unsigned number of `width` bytes. */
  function BigEndian(n: nat, width: nat): (b: seq<byte>)
    ensures |b| == width
  {
    if width == 0 then [] else BigEndian(n / 256, width - 1) + [n % 256]
  }

  /** The number that big-endian bytes stand for: the first byte weighs most. */
  function NumberOf(b: seq<byte>): nat {
    if b == [] then 0 else NumberOf(b[..|b| - 1]) * 256 + b[|b| - 1]
  }

  lemma {:induction false} BigEndianValue(n: nat, width: nat)
    requires n < Pow256(width)
    ensures NumberOf(BigEndian(n, width)) == n
  {
    if width > 0 {
      var b := BigEndian(n, width);
      assert b[..|b| - 1] == BigEndian(n / 256, width - 1);
      BigEndianValue(n / 256, width - 1);
    }
  }

  /** The code point that the bytes of one character stand for. */
  function CodeOf(b: seq<byte>): int
    requires 1 <= |b| <= 4
  {
    if |b| == 1 then b[0]
    else if |b| == 2 then (b[0] as int - 0xC0) * 64 + (b[1] as int - 0x80)
    else if |b| == 3 then (b[0] as int - 0xE0) * 4096 + (b[1] as int - 0x80) * 64 + (b[2] as int - 0x80)
    else (b[0] as int - 0xF0) * 262144 + (b[1] as int - 0x80) * 4096 + (b[2] as int - 0x80) * 64 + (b[3] as int - 0x80)
  }

  lemma Utf8CharStandsFor(c: char)
    ensures CodeOf(Utf8Char(c)) == c as int
    ensures forall i :: 1 <= i < |Utf8Char(c)| ==> 0x80 <= Utf8Char(c)[i] < 0xC0
  {
  }

  function Pow256(width: nat): (p: nat)
    ensures p >= 1
  {
    if width == 0 then 1 else 256 * Pow256(width - 1)
  }

  lemma {:induction false} BigEndianInjective(m: nat, n: nat, width: nat)
    requires m < Pow256(width) && n < Pow256(width)
    requires BigEndian(m, width) == BigEndian(n, width)
    ensures m == n
  {
    if width > 0 {
      var a, b := BigEndian(m, width), BigEndian(n, width);
      assert a[..width - 1] == BigEndian(m / 256, width - 1);
      assert b[..width - 1] == BigEndian(n / 256, width - 1);
      assert a[width - 1] == m % 256 && b[width - 1] == n % 256;
      BigEndianInjective(m / 256, n / 256, width - 1);
    }
  }

  lemma Pow256Values()
    ensures Pow256(4) == TWO_32 && Pow256(8) == TWO_64
  {
    assert Pow256(2) == 65536;
    assert Pow256(4) == TWO_32;
    assert Pow256(6) == 0x1_0000_0000_0000;
  }

  /** `i64::to_be_bytes`: two's complement. */
  function SignedBytes(n: int): (b: seq<byte>)
    ensures |b| == 8
  {
    BigEndian(n % TWO_64, 8)
  }

  predicate IsI64(n: int) { -TWO_63 <= n < TWO_63 }

  lemma SignedInjective(m: int, n: int)
    requires IsI64(m) && IsI64(n) && SignedBytes(m) == SignedBytes(n)
    ensures m == n
  {
    hide BigEndian;
    Pow256Values();
    BigEndianInjective(m % TWO_64, n % TWO_64, 8);
  }

  /** A field preceded by its length in `width` big-endian bytes. */
  function Field(f: seq<byte>, width: nat): (b: seq<byte>)
    ensures |b| == width + |f|
  {
    BigEndian(|f|, width) + f
  }

  lemma FieldPrefixFree(f: seq<byte>, g: seq<byte>, width: nat, x: seq<byte>, y: seq<byte>)
    requires |f| < Pow256(width) && |g| < Pow256(width)
    requires Field(f, width) + x == Field(g, width) + y
    ensures f == g && x == y
  {
    hide BigEndian, Pow256;
    var l, r := Field(f, width) + x, Field(g, width) + y;
    assert l[..width] == BigEndian(|f|, width) && r[..width] == BigEndian(|g|, width);
    BigEndianInjective(|f|, |g|, width);
    assert l[width..width + |f|] == f && r[width..width + |g|] == g;
    assert l[width + |f|..] == x && r[width + |g|..] == y;
  }

  function Fields(fs: seq<seq<byte>>, width: nat): seq<byte> {
    if fs == [] then [] else Field(fs[0], width) + Fields(fs[1..], width)
  }

  predicate FieldsFit(fs: seq<seq<byte>>, width: nat) {
    forall i :: 0 <= i < |fs| ==> |fs[i]| < Pow256(width)
  }

  /** As many fields as the reader asks for can be read back from the front of a longer string. */
  lemma {:induction false} FieldsPrefixFree(fs: seq<seq<byte>>, gs: seq<seq<byte>>, width: nat, x: seq<byte>, y: seq<byte>)
    requires |fs| == |gs| && FieldsFit(fs, width) && FieldsFit(gs, width)
    requires Fields(fs, width) + x == Fields(gs, width) + y
    ensures fs == gs && x == y
  {
    hide BigEndian, Pow256;
    if fs == [] {
      assert Fields(fs, width) + x == x && Fields(gs, width) + y == y;
    } else {
      var fx, gy := Fields(fs[1..], width) + x, Fields(gs[1..], width) + y;
      assert Fields(fs, width) + x == Field(fs[0], width) + fx;
      assert Fields(gs, width) + y == Field(gs[0], width) + gy;
      FieldPrefixFree(fs[0], gs[0], width, fx, gy);
      FieldsPrefixFree(fs[1..], gs[1..], width, x, y);
      assert fs == [fs[0]] + fs[1..] && gs == [gs[0]] + gs[1..];
    }
  }

  lemma {:induction false} FieldsAppend(fs: seq<seq<byte>>, f: seq<byte>, width: nat)
    ensures Fields(fs + [f], width) == Fields(fs, width) + Field(f, width)
  {
    hide BigEndian, Pow256;
    if fs == [] {
      assert fs + [f] == [f] && [f][1..] == [];
      assert Fields([f], width) == Field(f, width) + Fields([], width);
    } else {
      assert (fs + [f])[1..] == fs[1..] + [f];
      FieldsAppend(fs[1..], f, width);
    }
  }

  lemma {:induction false} FieldsConcat(fs: seq<seq<byte>>, gs: seq<seq<byte>>, width: nat)
    ensures Fields(fs + gs, width) == Fields(fs, width) + Fields(gs, width)
  {
    hide Field;
    if fs == [] {
      assert fs + gs == gs;
    } else {
      assert (fs + gs)[1..] == fs[1..] + gs;
      FieldsConcat(fs[1..], gs, width);
    }
  }

  /** Without any count, the whole string still determines the list of fields. */
  lemma {:induction false} FieldsInjective(fs: seq<seq<byte>>, gs: seq<seq<byte>>, width: nat)
    requires width > 0 && FieldsFit(fs, width) && FieldsFit(gs, width)
    requires Fields(fs, width) == Fields(gs, width)
    ensures fs == gs
  {
    hide BigEndian, Pow256;
    if fs != [] && gs != [] {
      FieldPrefixFree(fs[0], gs[0], width, Fields(fs[1..], width), Fields(gs[1..], width));
      FieldsInjective(fs[1..], gs[1..], width);
      assert fs == [fs[0]] + fs[1..] && gs == [gs[0]] + gs[1..];
    }
  }
}
