# xbridge core records, keys and addresses, in Dafny

This project models the parts of the BlockDX xbridge (the cross-chain
swap bridge) that carry their own logic in the headers:

- `XBridgeTransactionDescr` is one party's record of a swap attempt. It has
  a default constructor, a copy constructor, `operator=`, `copyFrom`,
  `updateTimestamp` (which keeps the earliest creation time), the locality
  test, the state-to-label table and the ordering by creation time.
  `TransactionDescrs.TransactionDescr` is a class with the record's fields
  and methods that update them in place. `Snapshot()` reads the record as a
  `Descr` value. The read-only operations, and the values the updating
  methods must produce (`AfterUpdateTimestamp`, `AfterCopy`), are functions
  on that value, and the lemmas are stated on it too.
- `XBridgeTransactionMember` is one side of a hub transaction: an id plus a
  source pair and a destination pair, each made of an address text and a
  binary x-address. Each setter overwrites only its own pair.
- `xbridge::CKey` is a 32-byte secret with a validity flag and a
  compression flag. `Keys.CKey` is a class over an array of 32 bytes, and
  `Keys.Key` is its value. `Set` checks the length, then the secp256k1 range
  check. Equality compares the flags and only the first `size()` bytes,
  using memcmp. `CExtKey` equality is modelled on `Keys.ExtKey`.
- `xbridge::XBitcoinAddress` holds a version prefix and a payload. The two
  `Set` overloads store the prefix byte and an id's 20 bytes. `IsValid`
  checks only the payload length. `Get` returns the all-zero id for an
  invalid address.

Some C++ behaviour is written out explicitly:

- The C++ integer widths are bounded subset types (`Byte`, `Char`, `Uint32`,
  `Uint64`, `Uint256`).
- `char` to `unsigned char` is a two's-complement conversion.
- `memcmp` is a recursive function, `Bytes.MemCmp`. It is proved to
  report equality exactly when the compared prefixes agree.

Some behaviour comes from outside the model and enters as a parameter:

- The clock (`boost::posix_time::second_clock::universal_time()`) is a
  `now` argument, one per operation, which stands for every clock read that
  operation makes.
- The secp256k1 range check `CKey::Check` is a `KeyCheck` predicate that
  the caller passes in.

## Model

| member | source | states |
|---|---|---|
| `Bytes.ToUnsignedChar` | src/xbridge/xbitcoinaddress.h:36-38 | the `char` prefix stored into an `unsigned char` vector is its two's-complement reading: unchanged when non-negative, plus 256 when negative |
| `Bytes.ToChar` | src/xbridge/xbitcoinaddress.h:22-28 | an `int` constant given as a `char` wraps modulo 256 and is unchanged when it fits in a signed byte |
| `Bytes.ByteThroughChar` | src/xbridge/xbitcoinaddress.h:36-38 | any byte passed as `char` and stored as `unsigned char` comes back unchanged |
| `Bytes.MemCmp` | src/xbridge/xkey.h:114 | the sign of `memcmp` is always -1, 0 or 1 |
| `Bytes.MemCmpZeroIff` | src/xbridge/xkey.h:114 | `memcmp(a, b, n) == 0` exactly when the first `n` bytes of `a` and `b` are equal |
| `Keys.Key.Size` | src/xbridge/xkey.h:143 | `size()` is 32 exactly when the key is valid and 0 exactly when it is not |
| `Keys.Key.Span` | src/xbridge/xkey.h:148-154 | `end() - begin() == size()`; the range is the whole secret for a valid key and empty for an invalid one |
| `Keys.Key.Equals` | src/xbridge/xkey.h:110-115 | `==` holds iff the compression flags agree, the validity flags (hence sizes) agree and the exposed ranges are equal |
| `Keys.EqualsIsEquivalence` | src/xbridge/xkey.h:110-115 | key equality is reflexive, symmetric and transitive |
| `Keys.InvalidKeysAreEqual` | src/xbridge/xkey.h:110-115 | two invalid keys with the same compression flag are equal whatever bytes they hold |
| `Keys.EqualValidKeysShareSecret` | src/xbridge/xkey.h:110-115 | a valid key equals only valid keys with the same 32 bytes and the same compression flag |
| `Keys.AfterSet` | src/xbridge/xkey.h:124-136 | the key becomes valid iff the input is 32 bytes and passes `Check`; then it holds the input and `fCompressedIn`, otherwise bytes and compression flag are unchanged |
| `Keys.SetSameSecretGivesEqualKeys` | src/xbridge/xkey.h:124-136 | two keys that accept the same secret with the same flag compare equal afterwards, whatever they held before |
| `Keys.SetIsIdempotent` | src/xbridge/xkey.h:124-136 | repeating `Set` with the same arguments changes nothing further |
| `Keys.ExtKey.Equals` | src/xbridge/xkey.h:293-300 | `CExtKey ==` holds iff depth, the 4 fingerprint bytes, child index, chain code and key (by key equality) all agree |
| `Keys.ExtEqualsIsEquivalence` | src/xbridge/xkey.h:293-300 | extended-key equality is reflexive, symmetric and transitive |
| `Keys.CKey.constructor` | src/xbridge/xkey.h:78-81 | a default key is invalid and uncompressed, with `size() == 0`, in a fresh 32-byte buffer |
| `Keys.CKey.Copy` | src/xbridge/xkey.h:88-92 | the copy has the same validity flag, compression flag and all 32 bytes, in a buffer of its own |
| `Keys.CKey.IsValid` | src/xbridge/xkey.h:161 | `IsValid()` holds exactly when the key's `size()` is 32 |
| `Keys.CKey.IsCompressed` | src/xbridge/xkey.h:168 | `IsCompressed()` is the compression flag of the key's value, the one equality compares |
| `Keys.CKey.Set` | src/xbridge/xkey.h:124-136 | the key's new value is `AfterSet` of its old value, in the same buffer |
| `Addresses.NullKeyId` | src/xbridge/xbitcoinaddress.h:100-103 | the default `CKeyID` is 20 zero bytes |
| `Addresses.VersionConstantsFitOneByte` | src/xbridge/xbitcoinaddress.h:22-28 | the constants 75, 8, 111 and 196 are stored unchanged as the one-byte version when passed as the `char` prefix |
| `Addresses.XBitcoinAddress.constructor` | src/xbridge/xbitcoinaddress.h:72-74 | a default address has no version and no payload and is not valid |
| `Addresses.XBitcoinAddress.SetData` | src/xbridge/xbitcoinaddress.h:38 | the version and the payload become exactly the given bytes |
| `Addresses.XBitcoinAddress.SetKeyId` | src/xbridge/xbitcoinaddress.h:36-40 | returns true; the version is the single prefix byte and the payload the id's 20 bytes, so the address is valid and `Get()` returns the id |
| `Addresses.XBitcoinAddress.SetScriptId` | src/xbridge/xbitcoinaddress.h:48-52 | returns true; the version is the single prefix byte and the payload the script id's 20 bytes, which `Get()` returns |
| `Addresses.XBitcoinAddress.Get` | src/xbridge/xbitcoinaddress.h:98-108 | a valid address yields its 20 payload bytes; an invalid one yields the all-zero id |
| `Addresses.XBitcoinAddress.IsValid` | src/xbridge/xbitcoinaddress.h:63-67 | holds exactly when the payload is 20 bytes long; the version is not consulted |
| `Addresses.VersionIsIgnored` | src/xbridge/xbitcoinaddress.h:63-67 | validity and `Get()` depend on the payload only: addresses with the same payload agree on both whatever their versions |
| `TransactionMembers.TransactionMember.constructor` | src/xbridge/xbridgetransactionmember.h:25 | a default member has id 0, no addresses and is empty |
| `TransactionMembers.TransactionMember.WithId` | src/xbridge/xbridgetransactionmember.h:31 | a member built with an id returns that id from `id()`, has no addresses and is empty |
| `TransactionMembers.TransactionMember.SetSource` | src/xbridge/xbridgetransactionmember.h:62-66 | sets the source text and x-address, leaves the destination pair, id and hash unchanged; afterwards empty iff the new source or the old destination is empty |
| `TransactionMembers.TransactionMember.SetDest` | src/xbridge/xbridgetransactionmember.h:85-89 | sets the destination text and x-address, leaves the source pair, id and hash unchanged; afterwards empty iff the new destination or the old source is empty |
| `TransactionMembers.TransactionMember.IsEmpty` | src/xbridge/xbridgetransactionmember.h:37 | a member is empty exactly when its source text or its destination text is empty |
| `TransactionMembers.TransactionMember.Id` | src/xbridge/xbridgetransactionmember.h:43 | `id()` returns the stored id |
| `TransactionMembers.TransactionMember.Source` | src/xbridge/xbridgetransactionmember.h:49 | `source()` returns the stored source address text |
| `TransactionMembers.TransactionMember.XSource` | src/xbridge/xbridgetransactionmember.h:55 | `xsource()` returns the stored source x-address |
| `TransactionMembers.TransactionMember.Dest` | src/xbridge/xbridgetransactionmember.h:72 | `dest()` returns the stored destination address text |
| `TransactionMembers.TransactionMember.XDest` | src/xbridge/xbridgetransactionmember.h:78 | `xdest()` returns the stored destination x-address |
| `TransactionMembers.EmptinessIgnoresXAddresses` | src/xbridge/xbridgetransactionmember.h:37 | `isEmpty()` depends only on the two address texts, not on ids or x-addresses |
| `TransactionMembers.FillMember` | src/xbridge/xbridgetransactionmember.h:31-89 | a constructed member given a non-empty source and a non-empty destination, in either order, is not empty, keeps its id and reports both pairs |
| `TransactionDescrs.State.Code` | src/xbridge/xbridgetransactiondescr.h:38-56 | the enum values run from -1 (`trExpired`) to 14; `trExpired` is the only -1 and `trNew` the only 0 |
| `TransactionDescrs.CodeIsInjective` | src/xbridge/xbridgetransactiondescr.h:38-56 | distinct states have distinct enum values |
| `TransactionDescrs.StrState` | src/xbridge/xbridgetransactiondescr.h:307-327 | the label is "Unknown" exactly for `trInitialized` and `trRollbackFailed`; `trPending` is "Open", `trRollback` "Rolled Back", `trExpired` "Expired", `trOffline` "Offline" |
| `TransactionDescrs.LabelsIdentifyStates` | src/xbridge/xbridgetransactiondescr.h:307-327 | every label other than "Unknown" belongs to exactly one state |
| `TransactionDescrs.IsLocal` | src/xbridge/xbridgetransactiondescr.h:298-301 | `isLocal()` holds exactly when both `from` and `to` are non-empty |
| `TransactionDescrs.Less` | src/xbridge/xbridgetransactiondescr.h:241-244 | `a < b` holds exactly when `b > a`, and never between records created at the same time |
| `TransactionDescrs.Greater` | src/xbridge/xbridgetransactiondescr.h:251-254 | `a > b` never holds between records created at the same time |
| `TransactionDescrs.OrdersAreStrictAndConverse` | src/xbridge/xbridgetransactiondescr.h:241-254 | `<` and `>` are irreflexive, asymmetric and transitive, `a < b` iff `b > a`, and two records are unordered iff their `created` times are equal |
| `TransactionDescrs.AfterUpdateTimestamp` | src/xbridge/xbridgetransactiondescr.h:285-292 | `txtime` becomes the current time; `created` becomes the earlier of the two `created` times, so it never increases; every other field is unchanged |
| `TransactionDescrs.UpdatesKeepEarliest` | src/xbridge/xbridgetransactiondescr.h:285-292 | after any sequence of timestamp merges, `created` is the earliest `created` of the record and of every merged record, and it is one of them |
| `TransactionDescrs.AfterCopy` | src/xbridge/xbridgetransactiondescr.h:335-379 | after `copyFrom(d)` every copied field equals `d`'s, `packet` is the old one, `txtime` is the current time and `created` is the earlier of the old and `d`'s |
| `TransactionDescrs.CopyIsIdempotent` | src/xbridge/xbridgetransactiondescr.h:335-379 | copying the same record twice equals copying it once at the later time |
| `TransactionDescrs.CopyKeepsLocalityStateAndOrder` | src/xbridge/xbridgetransactiondescr.h:335-379 | a copy has `d`'s locality and state label, and is not later than `d` nor than the record it overwrote |
| `TransactionDescrs.SelfCopyOnlyRefreshesTxtime` | src/xbridge/xbridgetransactiondescr.h:256-266 | a copy of a record onto itself would change `txtime` only, which is what the self-assignment guard avoids |
| `TransactionDescrs.TransactionDescr.constructor` | src/xbridge/xbridgetransactiondescr.h:220-229 | role, tax, both lock times and reason are 0, state is `trNew`, `created` and `txtime` are the current time, id 0, the packet is null, every string and address starts empty (so `from` and `to` are empty and the record is not local) |
| `TransactionDescrs.TransactionDescr.Copy` | src/xbridge/xbridgetransactiondescr.h:272-279 | the copy has every copied field of `d`, including `d`'s state rather than `trNew`; its `created` is the earlier of the construction time and `d.created`; its packet is null |
| `TransactionDescrs.TransactionDescr.Assign` | src/xbridge/xbridgetransactiondescr.h:256-266 | assigning a record to itself changes no field, not even `txtime`; any other assignment leaves exactly `AfterCopy` of the old values |
| `TransactionDescrs.TransactionDescr.UpdateTimestamp` | src/xbridge/xbridgetransactiondescr.h:285-292 | touches only `txtime` and `created`: `txtime` is the current time and `created` the earlier of the old value and `d.created` |
| `TransactionDescrs.TransactionDescr.CopyFrom` | src/xbridge/xbridgetransactiondescr.h:335-379 | every copied field equals `d`'s old value, the packet is kept, `txtime` is the current time and `created` the earlier of the old value and `d.created` |
| `TransactionDescrs.TransactionDescr.CopyTerms` | src/xbridge/xbridgetransactiondescr.h:337-349 | touches only the trade terms and lifecycle fields, which then equal the given record's |
| `TransactionDescrs.TransactionDescr.CopyArtifacts` | src/xbridge/xbridgetransactiondescr.h:350-376 | touches only the raw transactions, scripts, keys and addresses, which then equal the given record's |
| `TransactionDescrs.TransactionDescr.CopyTradeTerms` | src/xbridge/xbridgetransactiondescr.h:337-343 | touches only id, role, both addresses, the source currency and amount and the destination currency, which then equal the given record's |
| `TransactionDescrs.TransactionDescr.CopyLifecycle` | src/xbridge/xbridgetransactiondescr.h:344-349 | touches only the destination amount, tax, lock times, state and reason, which then equal the given record's |
| `TransactionDescrs.TransactionDescr.CopyRawTransactions` | src/xbridge/xbridgetransactiondescr.h:350-358 | touches only the deposit, payment and refund transactions and ids, which then equal the given record's, the repeated assignments included |
| `TransactionDescrs.TransactionDescr.CopyScriptKeysAndAddresses` | src/xbridge/xbridgetransactiondescr.h:361-376 | touches only the multisig address, redeem script, both key pairs and the hub and confirmation addresses, which then equal the given record's |

## Left out

- The secp256k1 range check `CKey::Check` (src/xbridge/xkey.h:71) is
  foreign code. It is a caller-supplied predicate, so no property of
  secp256k1 keys is assumed.
- Key generation and use are foreign cryptography and are not modelled:
  `MakeNewKey`, `GetPubKey`, `Sign`, `SignCompact`, `Derive`, and
  `CExtKey`'s `SetMaster`, `Neuter`, BIP 32 `Encode`/`Decode` and
  serialisation.
- The `CKey` destructor has an empty body in the source and is not
  modelled.
- The default `CKey` constructor does not initialise its buffer. The model
  allocates a buffer with arbitrary bytes and promises nothing about them.
- The base58 text form of `XBitcoinAddress` is not modelled: `SetString`, the
  two string constructors (src/xbridge/xbitcoinaddress.h:80-92). `CBase58Data`'s `SetData` is modelled as assigning both fields.
- `CPubKey` and `CBitcoinSecret` are opaque byte data in the record: a
  public key as its bytes, a secret as a version plus payload.
- The packet that `XBridgePacketPtr` points to is only a byte sequence
  (null or not). Packet contents are part of the session protocol, which is
  not part of this model.
- Clock reads: each operation takes a single `now`. `updateTimestamp`, and
  so `copyFrom`, reads the clock once
  (src/xbridge/xbridgetransactiondescr.h:287). The default constructor reads
  it twice (:227, :228) and the copy constructor three times (:275, :276 and
  :287 through `copyFrom`). The model gives all reads of one operation the
  same value, so it does not capture the clock ticking between them.
- `TransactionDescrs.TransactionDescr.constructor`: because both reads are
  one `now`, the model gives a default record `created == txtime`. In the
  source the two may differ by the tick between the reads at :227 and :228.
- `TransactionDescrs.TransactionDescr.constructor`: the default constructor
  leaves `fromAmount` and `toAmount` uninitialised, so the contract promises
  nothing about them. It also promises nothing about the default-constructed
  keys and addresses.
- `TransactionDescrs.TransactionDescr.Copy`: the copy constructor's
  temporary `created`/`txtime`/`state` values are overwritten by `copyFrom`.
  Only their final effect is stated.
- `TransactionDescrs.StrState`: the state enum is modelled as its 16 named
  enumerators (`TransactionDescrs.State`). The C++ enum type also holds
  other integer values, and a state cast in from an integer (as the UI does
  with values it stores as `uint32_t`) that names no enumerator falls to
  the `default:` branch and is labelled "Unknown"
  (src/xbridge/xbridgetransactiondescr.h:325). Such values cannot be
  represented here, so the contract's "Unknown exactly for
  `trInitialized` and `trRollbackFailed`" speaks of the named states only.
- `copyFrom` does not copy `prevtxs`; the field is commented out in the
  source and is absent from the model.
- Nothing else outside the four headers is modelled:
  - the sessions and packet handlers, the exchange, the application tables
    and the `XBridgeTransaction` state machine (declarations only);
  - the wallet connectors, RPC, UI, settings, logging and threads;
  - floating-point fees and amounts.
