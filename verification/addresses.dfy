/** The bridge's bitcoin-style address (`xbridge::XBitcoinAddress`): a version
    prefix and a payload, the two fields it inherits from `CBase58Data`. The
    base58 text form is not part of this model; `CBase58Data::SetData` is
    modelled as the assignment of both fields. */
module Addresses {
  import opened Bytes

  /** Version prefixes (the main network's pubkey addresses begin with 'X'). */
  const PUBKEY_ADDRESS: int := 75
  const SCRIPT_ADDRESS: int := 8
  const PUBKEY_ADDRESS_TEST: int := 111
  const SCRIPT_ADDRESS_TEST: int := 196

  /** Size of the payload that makes an address valid */
  const ID_SIZE: nat := 20

  /** `uint160` */
  type Uint160 = s: seq<Byte> | |s| == ID_SIZE witness seq(20, _ => 0 as Byte)

  /** `CKeyID`: the hash of a public key */
  datatype KeyId = KeyId(hash: Uint160)

  /** `CScriptID`: the hash of a script */
  datatype ScriptId = ScriptId(hash: Uint160)

  /** `CKeyID()`: the default, all-zero id */
  function NullKeyId(): (id: KeyId)
    ensures forall i :: 0 <= i < ID_SIZE ==> id.hash[i] == 0
  {
    KeyId(seq(20, _ => 0 as Byte))
  }

  /** A base58 payload with its version bytes (`CBase58Data`), as held by
      value, for example inside a `CBitcoinSecret`. */
  datatype Base58Data = Base58Data(vchVersion: seq<Byte>, vchData: seq<Byte>)

  /** Every version constant survives the `char prefix` parameter of `Set`:
      the stored version byte is the constant itself. */
  lemma VersionConstantsFitOneByte()
    ensures ToUnsignedChar(ToChar(PUBKEY_ADDRESS)) as int == 75
    ensures ToUnsignedChar(ToChar(SCRIPT_ADDRESS)) as int == 8
    ensures ToUnsignedChar(ToChar(PUBKEY_ADDRESS_TEST)) as int == 111
    ensures ToUnsignedChar(ToChar(SCRIPT_ADDRESS_TEST)) as int == 196
  {
    ByteThroughChar(75);
    ByteThroughChar(8);
    ByteThroughChar(111);
    ByteThroughChar(196);
  }

  class XBitcoinAddress {
    var vchVersion: seq<Byte>
    var vchData: seq<Byte>

    /** The default constructor: no version and no payload. */
    constructor ()
      ensures vchVersion == [] && vchData == []
      ensures !IsValid()
    {
      vchVersion := [];
      vchData := [];
    }

    /** `CBase58Data::SetData(vchVersionIn, pbegin, pend)` */
    method SetData(vchVersionIn: seq<Byte>, data: seq<Byte>)
      modifies this
      ensures vchVersion == vchVersionIn && vchData == data
    {
      vchVersion := vchVersionIn;
      vchData := data;
    }

    /** `Set(const CKeyID &id, char prefix)`: the version becomes the single
        byte `prefix` and the payload the 20 bytes of `id`; always succeeds,
        and the address then gives `id` back. */
    method SetKeyId(id: KeyId, prefix: Char) returns (ok: bool)
      modifies this
      ensures ok
      ensures vchVersion == [ToUnsignedChar(prefix)] && vchData == id.hash
      ensures IsValid() && Get() == id
    {
      SetData([ToUnsignedChar(prefix)], id.hash);
      ok := true;
    }

    /** `Set(const CScriptID &id, char prefix)`: the same for a script id;
        `Get` then returns the script hash read as a key id. */
    method SetScriptId(id: ScriptId, prefix: Char) returns (ok: bool)
      modifies this
      ensures ok
      ensures vchVersion == [ToUnsignedChar(prefix)] && vchData == id.hash
      ensures IsValid() && Get().hash == id.hash
    {
      SetData([ToUnsignedChar(prefix)], id.hash);
      ok := true;
    }

    /** `IsValid()`: only the payload length is checked, never the version. */
    predicate IsValid()
      reads this
    {
      |vchData| == ID_SIZE
    }

    /** `Get()`: the payload as a key id, or the null id when the address is
        not valid. */
    function Get(): (id: KeyId)
      reads this
      ensures IsValid() ==> id.hash == vchData
      ensures !IsValid() ==> id == NullKeyId()
    {
      if !IsValid() then NullKeyId() else KeyId(vchData[..ID_SIZE])
    }
  }

  /** The version prefix plays no part in validity or in `Get`: two
      addresses with the same payload agree on both, whatever their versions. */
  lemma VersionIsIgnored(a: XBitcoinAddress, b: XBitcoinAddress)
    requires a.vchData == b.vchData
    ensures a.IsValid() == b.IsValid() && a.Get() == b.Get()
  {
  }
}
