/** Fixed-width integers, bytes, and the C library routine memcmp that the
    key header relies on. C++ widths are written out as bounded subset types
    so that nothing silently grows past them. */
module Bytes {

  /** `unsigned char` */
  newtype Byte = b: int | 0 <= b < 0x100

  /** `char`, signed and 8 bits wide on the platforms the project targets */
  type Char = c: int | -0x80 <= c < 0x80

  type Uint32 = x: int | 0 <= x < 0x1_0000_0000

  type Uint64 = x: int | 0 <= x < 0x1_0000_0000_0000_0000

  /** `uint256`, read as an unsigned number; its default constructor gives 0 */
  type Uint256 = x: int | 0 <= x < 0x1_0000_0000_0000_0000_0000_0000_0000_0000_0000_0000_0000_0000_0000_0000_0000_0000

  /** A nullable value, used for a null shared pointer */
  datatype Option<T> = None | Some(value: T)

  /** `(unsigned char)c`: the two's-complement reading of a `char` */
  function ToUnsignedChar(c: Char): (b: Byte)
    ensures c >= 0 ==> b as int == c
    ensures c < 0 ==> b as int == c + 0x100
  {
    (c % 0x100) as Byte
  }

  /** An `int` constant converted to `char`: it wraps modulo 256 */
  function ToChar(x: int): (c: Char)
    ensures (x - c) % 0x100 == 0
    ensures -0x80 <= x < 0x80 ==> c == x
  {
    (x + 0x80) % 0x100 - 0x80
  }

  /** A byte value passed through a `char` parameter and stored back into an
      `unsigned char` comes out unchanged. */
  lemma ByteThroughChar(b: Byte)
    ensures ToUnsignedChar(ToChar(b as int)) == b
  {
  }

  /** The sign of `memcmp(a, b, n)`: bytes are compared as unsigned values,
      from the first one on, and the first difference decides. */
  function MemCmp(a: seq<Byte>, b: seq<Byte>, n: nat): (r: int)
    requires n <= |a| && n <= |b|
    ensures -1 <= r <= 1
    decreases n
  {
    if n == 0 then 0
    else if a[0] < b[0] then -1
    else if a[0] > b[0] then 1
    else MemCmp(a[1..], b[1..], n - 1)
  }

  /** `memcmp` reports equality exactly when the first `n` bytes agree. */
  lemma {:induction false} MemCmpZeroIff(a: seq<Byte>, b: seq<Byte>, n: nat)
    requires n <= |a| && n <= |b|
    ensures MemCmp(a, b, n) == 0 <==> a[..n] == b[..n]
    decreases n
  {
    if n > 0 {
      MemCmpZeroIff(a[1..], b[1..], n - 1);
      assert a[..n] == [a[0]] + a[1..][..n - 1];
      assert b[..n] == [b[0]] + b[1..][..n - 1];
    }
  }
}
