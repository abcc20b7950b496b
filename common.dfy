/**
 * Value types shared by every layer of the firmware model: bytes, 32-bit
 * unsigned integers, optional values, single-bit operations on an 8-bit
 * register value, and the ASCII-only case folding of the C library's
 * `tolower` in the "C" locale.
 */
module Common {

  /** An `uint8_t`: register addresses, register values, I2C addresses. */
  type byte = x: int | 0 <= x < 256

  /** An `unsigned`/`uint32_t` on the RP2040 (both are 32 bits wide). */
  type u32 = x: int | 0 <= x < 0x1_0000_0000

  datatype Option<T> = None | Some(value: T)

  /** The C conversion `(unsigned)n`: reduction modulo 2^32. */
  function ToUnsigned(n: int): (r: u32)
    ensures 0 <= n < 0x1_0000_0000 ==> r == n
    ensures n < 0 && n >= -0x1_0000_0000 ==> r == n + 0x1_0000_0000
  {
    n % 0x1_0000_0000
  }

  // ---------------------------------------------------------------------
  // Single bits of an 8-bit register value
  // ---------------------------------------------------------------------

  /** `1u << i` for a bit position of a byte. */
  function Mask(i: nat): bv8
    requires i < 8
  {
    [1, 2, 4, 8, 16, 32, 64, 128][i]
  }

  /** Bit `i` of `v` is one. */
  predicate Bit(v: byte, i: nat)
    requires i < 8
  {
    (v as bv8) & Mask(i) != 0
  }

  /** `v | (1u << i)`. */
  function SetBit(v: byte, i: nat): byte
    requires i < 8
  {
    ((v as bv8) | Mask(i)) as int
  }

  /** `v & ~(1u << i)`, truncated to a byte as the `uint8_t` assignment does. */
  function ClearBit(v: byte, i: nat): byte
    requires i < 8
  {
    ((v as bv8) & !Mask(i)) as int
  }

  lemma ByteRoundTrip(b: bv8)
    ensures (b as int) as bv8 == b
  {}

  /** Setting bit `i` makes it one and leaves the seven other bits alone. */
  lemma SetBitSpec(v: byte, i: nat)
    requires i < 8
    ensures Bit(SetBit(v, i), i)
    ensures forall j :: 0 <= j < 8 && j != i ==> (Bit(SetBit(v, i), j) <==> Bit(v, j))
  {
    ByteRoundTrip((v as bv8) | Mask(i));
  }

  /** Clearing bit `i` makes it zero and leaves the seven other bits alone. */
  lemma ClearBitSpec(v: byte, i: nat)
    requires i < 8
    ensures !Bit(ClearBit(v, i), i)
    ensures forall j :: 0 <= j < 8 && j != i ==> (Bit(ClearBit(v, i), j) <==> Bit(v, j))
  {
    ByteRoundTrip((v as bv8) & !Mask(i));
    ClearMaskBits(v as bv8, i);
  }

  /** The bit-vector core of `ClearBitSpec`. */
  lemma ClearMaskBits(x: bv8, i: nat)
    requires i < 8
    ensures (x & !Mask(i)) & Mask(i) == 0
    ensures forall j :: 0 <= j < 8 && j != i ==> (x & !Mask(i)) & Mask(j) == x & Mask(j)
  {
  }

  // ---------------------------------------------------------------------
  // ASCII case folding
  // ---------------------------------------------------------------------

  predicate IsUpper(c: char) { 'A' <= c <= 'Z' }

  /** `tolower` in the "C" locale: only 'A'..'Z' change. */
  function LowerChar(c: char): char
  {
    if IsUpper(c) then (c as int + 32) as char else c
  }

  /** Every character folded to lower case. */
  function Lower(s: string): (r: string)
    ensures |r| == |s|
    ensures forall i :: 0 <= i < |s| ==> r[i] == LowerChar(s[i])
  {
    seq(|s|, i requires 0 <= i < |s| => LowerChar(s[i]))
  }

  /** Text without capitals is its own folding. */
  lemma LowerKeeps(s: string)
    requires forall i :: 0 <= i < |s| ==> !IsUpper(s[i])
    ensures Lower(s) == s
  {
  }

  /** Folding twice is folding once. */
  lemma LowerIdempotent(s: string)
    ensures Lower(Lower(s)) == Lower(s)
  {
    assert forall i :: 0 <= i < |s| ==> LowerChar(LowerChar(s[i])) == LowerChar(s[i]);
  }

  /** The first `n` characters (all of them when there are fewer). */
  function Prefix(s: string, n: nat): (r: string)
    ensures |r| <= n && r <= s
    ensures |s| <= n ==> r == s
  {
    if |s| <= n then s else s[..n]
  }

  // ---------------------------------------------------------------------
  // C strings held in character buffers
  // ---------------------------------------------------------------------

  /** Length of the C string held in `s`: the position of its first NUL. */
  function CLen(s: seq<char>): (n: nat)
    requires '\0' in s
    ensures n < |s| && s[n] == '\0'
    ensures forall i :: 0 <= i < n ==> s[i] != '\0'
  {
    if s[0] == '\0' then 0 else 1 + CLen(s[1..])
  }

  /** A sequence whose first NUL is at `m` holds a C string of length `m`. */
  lemma CLenAt(s: seq<char>, m: nat)
    requires m < |s| && s[m] == '\0' && forall i :: 0 <= i < m ==> s[i] != '\0'
    ensures CLen(s) == m
  {
    if m > 0 {
      CLenAt(s[1..], m - 1);
    }
  }
}
