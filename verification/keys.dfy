/** The encapsulated private key of the bridge (`xbridge::CKey`) and the
    extended key that carries one (`xbridge::CExtKey`).

    A CKey is a 32-byte buffer with a validity flag and a compression flag. It
    is updated in place by its copy constructor and by `Set`, so it is a class
    over an array. Everything that only reads a key (size, the begin..end
    range, validity, compression, equality) is stated on its value, `Key`,
    which is also how a CExtKey holds its key: by value. */
module Keys {
  import opened Bytes

  /** `sizeof(vch)` */
  const KEY_SIZE: nat := 32

  /** The secp256k1 range check `CKey::Check` is foreign code; callers of
      `Set` pass it in as a predicate on the 32 candidate bytes. */
  type KeyCheck = KeyBytes -> bool

  type KeyBytes = s: seq<Byte> | |s| == KEY_SIZE witness seq(32, _ => 0 as Byte)

  type Fingerprint = s: seq<Byte> | |s| == 4 witness [0, 0, 0, 0]

  /** BIP 32 chain code: a `uint256` */
  type ChainCode = Uint256

  /** The value held by a CKey: its two flags and its whole 32-byte buffer,
      including the bytes that an invalid key still carries. */
  datatype Key = Key(valid: bool, compressed: bool, vch: KeyBytes)
  {
    /** `size()`: a key exposes its 32 bytes only while it is valid. */
    function Size(): (n: nat)
      ensures n == KEY_SIZE <==> valid
      ensures n == 0 <==> !valid
    {
      if valid then KEY_SIZE else 0
    }

    /** The range `begin()..end()`, whose length `end() - begin()` is `size()`. */
    function Span(): (r: seq<Byte>)
      ensures |r| == Size()
      ensures valid ==> r == vch
      ensures !valid ==> r == []
    {
      vch[..Size()]
    }

    /** `operator==`: equal compression flags, equal sizes and equal first
        `size()` bytes, compared with memcmp. */
    predicate Equals(other: Key)
      ensures Equals(other) <==>
        compressed == other.compressed && valid == other.valid && Span() == other.Span()
    {
      MemCmpZeroIff(vch, other.vch, Size());
      compressed == other.compressed && Size() == other.Size() &&
      MemCmp(vch, other.vch, Size()) == 0
    }
  }

  /** The value of a key after `Set(pbegin, pend, fCompressedIn)`. */
  function AfterSet(k: Key, input: seq<Byte>, fCompressedIn: bool, check: KeyCheck): (r: Key)
    ensures r.valid <==> |input| == KEY_SIZE && check(input)
    ensures r.valid ==> r.vch == input && r.compressed == fCompressedIn
    ensures !r.valid ==> r.vch == k.vch && r.compressed == k.compressed
  {
    if |input| != KEY_SIZE then k.(valid := false)
    else if check(input) then Key(true, fCompressedIn, input)
    else k.(valid := false)
  }

  /** Key equality is an equivalence relation, although it is not equality of
      the stored values. */
  lemma EqualsIsEquivalence(a: Key, b: Key, c: Key)
    ensures a.Equals(a)
    ensures a.Equals(b) ==> b.Equals(a)
    ensures a.Equals(b) && b.Equals(c) ==> a.Equals(c)
  {
  }

  /** Two invalid keys with the same compression flag compare equal whatever
      bytes they still store. */
  lemma InvalidKeysAreEqual(a: Key, b: Key)
    requires !a.valid && !b.valid && a.compressed == b.compressed
    ensures a.Equals(b)
  {
  }

  /** Equal keys that are valid hold the same secret. */
  lemma EqualValidKeysShareSecret(a: Key, b: Key)
    requires a.valid && a.Equals(b)
    ensures b.valid && a.vch == b.vch && a.compressed == b.compressed
  {
  }

  /** Two keys that accept the same secret with the same flag are equal
      afterwards, whatever each held before. */
  lemma SetSameSecretGivesEqualKeys(k1: Key, k2: Key, input: seq<Byte>, fCompressedIn: bool, check: KeyCheck)
    requires |input| == KEY_SIZE && check(input)
    ensures AfterSet(k1, input, fCompressedIn, check).Equals(AfterSet(k2, input, fCompressedIn, check))
  {
  }

  /** `Set` settles the key: repeating it with the same arguments changes
      nothing further. */
  lemma SetIsIdempotent(k: Key, input: seq<Byte>, fCompressedIn: bool, check: KeyCheck)
    ensures AfterSet(AfterSet(k, input, fCompressedIn, check), input, fCompressedIn, check)
            == AfterSet(k, input, fCompressedIn, check)
  {
  }

  /** The extended key `CExtKey`, a plain aggregate. */
  datatype ExtKey = ExtKey(nDepth: Byte, vchFingerprint: Fingerprint, nChild: Uint32,
                           chaincode: ChainCode, key: Key)
  {
    /** `operator==`: depth, the 4 fingerprint bytes (memcmp), child index,
        chain code and key all compare equal. */
    predicate Equals(other: ExtKey)
      ensures Equals(other) <==>
        nDepth == other.nDepth && vchFingerprint == other.vchFingerprint &&
        nChild == other.nChild && chaincode == other.chaincode && key.Equals(other.key)
    {
      MemCmpZeroIff(vchFingerprint, other.vchFingerprint, 4);
      nDepth == other.nDepth &&
      MemCmp(vchFingerprint, other.vchFingerprint, 4) == 0 &&
      nChild == other.nChild &&
      chaincode == other.chaincode &&
      key.Equals(other.key)
    }
  }

  /** Extended-key equality is an equivalence relation. */
  lemma ExtEqualsIsEquivalence(a: ExtKey, b: ExtKey, c: ExtKey)
    ensures a.Equals(a)
    ensures a.Equals(b) ==> b.Equals(a)
    ensures a.Equals(b) && b.Equals(c) ==> a.Equals(c)
  {
  }

  /** `xbridge::CKey`: the flags and the fixed 32-byte buffer `vch`. */
  class CKey {
    var fValid: bool
    var fCompressed: bool
    var vch: array<Byte>

    ghost predicate Valid()
      reads this
    {
      vch.Length == KEY_SIZE
    }

    /** The value the key currently holds. */
    function Value(): Key
      reads this, vch
      requires Valid()
    {
      Key(fValid, fCompressed, vch[..])
    }

    /** Constructs an invalid, uncompressed key; the buffer is not initialised. */
    constructor ()
      ensures Valid() && fresh(vch)
      ensures !Value().valid && !Value().compressed && Value().Size() == 0
    {
      fValid := false;
      fCompressed := false;
      vch := new Byte[KEY_SIZE];
    }

    /** The copy constructor: both flags and all 32 bytes, valid or not. */
    constructor Copy(secret: CKey)
      requires secret.Valid()
      ensures Valid() && fresh(vch)
      ensures Value() == secret.Value()
    {
      fValid := secret.fValid;
      fCompressed := secret.fCompressed;
      vch := new Byte[KEY_SIZE];
      new;
      forall i | 0 <= i < KEY_SIZE {
        vch[i] := secret.vch[i];
      }
    }

    /** `Set(pbegin, pend, fCompressedIn)`: a wrong length or a failed range
        check only clears the validity flag; otherwise the bytes are copied
        in and both flags are set. */
    method Set(input: seq<Byte>, fCompressedIn: bool, check: KeyCheck)
      requires Valid()
      modifies this, vch
      ensures Valid() && vch == old(vch)
      ensures Value() == AfterSet(old(Value()), input, fCompressedIn, check)
    {
      if |input| != KEY_SIZE {
        fValid := false;
      } else if check(input) {
        forall i | 0 <= i < KEY_SIZE {
          vch[i] := input[i];
        }
        fValid := true;
        fCompressed := fCompressedIn;
      } else {
        fValid := false;
      }
    }

    /** `IsValid()`: exactly when the key exposes its 32 bytes. */
    function IsValid(): (r: bool)
      reads this, vch
      ensures Valid() ==> (r <==> Value().Size() == KEY_SIZE)
    {
      fValid
    }

    /** `IsCompressed()`: the flag that key equality compares. */
    function IsCompressed(): (r: bool)
      reads this, vch
      ensures Valid() ==> (r <==> Value().compressed)
    {
      fCompressed
    }
  }
}
