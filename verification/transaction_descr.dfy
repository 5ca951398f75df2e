/** One party's record of a swap attempt (`XBridgeTransactionDescr`).

    The record is updated in place by its constructors, by assignment and by
    `updateTimestamp`, so it is a class whose fields are the source's fields.
    `Snapshot()` gives its value as a `Descr`; the read-only operations
    (`isLocal`, `strState`, `<`, `>`) and the specifications of the updating
    ones are functions on that value. The clock is a `now` argument, read
    once per operation. */
module TransactionDescrs {
  import opened Bytes
  import Addresses

  /** Seconds on the universal-time clock (`boost::posix_time::ptime`). */
  type Time = int

  /** `CPubKey`, by its serialized bytes */
  type PubKey = seq<Byte>

  /** `CBitcoinSecret`, a base58 payload with its version bytes */
  type Secret = Addresses.Base58Data

  /** `XBridgePacketPtr`: a shared packet, `None` for the null pointer */
  type PacketPtr = Option<seq<Byte>>

  /** The life-cycle states, in the order (and with the values) of the enum. */
  datatype State =
    | Expired | New | Offline | Pending | Accepting | Hold | Initialized
    | Created | Signed | Commited | Finished | Rollback | RollbackFailed
    | Dropped | Cancelled | Invalid
  {
    /** The enumerator's integer value: `trExpired = -1`, `trNew = 0`, then
        consecutive. */
    function Code(): (c: int)
      ensures -1 <= c <= 14
      ensures c == -1 <==> this == Expired
      ensures c == 0 <==> this == New
    {
      match this
      case Expired => -1
      case New => 0
      case Offline => 1
      case Pending => 2
      case Accepting => 3
      case Hold => 4
      case Initialized => 5
      case Created => 6
      case Signed => 7
      case Commited => 8
      case Finished => 9
      case Rollback => 10
      case RollbackFailed => 11
      case Dropped => 12
      case Cancelled => 13
      case Invalid => 14
    }
  }

  /** Distinct states have distinct enum values. */
  lemma CodeIsInjective(a: State, b: State)
    ensures a.Code() == b.Code() ==> a == b
  {
  }

  /** `strState()`: the label shown for a state. Two states have no case in
      the switch and fall through to "Unknown". */
  function StrState(s: State): (text: string)
    ensures text == "Unknown" <==> s == Initialized || s == RollbackFailed
    ensures s == Pending ==> text == "Open"
    ensures s == Rollback ==> text == "Rolled Back"
    ensures s == Expired ==> text == "Expired"
    ensures s == Offline ==> text == "Offline"
  {
    match s
    case Invalid => "Invalid"
    case New => "New"
    case Pending => "Open"
    case Accepting => "Accepting"
    case Hold => "Hold"
    case Created => "Created"
    case Signed => "Signed"
    case Commited => "Commited"
    case Finished => "Finished"
    case Cancelled => "Cancelled"
    case Rollback => "Rolled Back"
    case Dropped => "Dropped"
    case Expired => "Expired"
    case Offline => "Offline"
    case _ => "Unknown"
  }

  /** Every label other than "Unknown" names exactly one state. */
  lemma LabelsIdentifyStates(a: State, b: State)
    requires StrState(a) == StrState(b) && StrState(a) != "Unknown"
    ensures a == b
  {
  }

  /** The value of a descr: every field of the struct. */
  datatype Descr = Descr(
    id: Uint256,
    role: Char,
    hubAddress: seq<Byte>,
    confirmAddress: seq<Byte>,
    from: string,
    fromCurrency: string,
    fromAmount: Uint64,
    to: string,
    toCurrency: string,
    toAmount: Uint64,
    tax: Uint32,
    lockTimeTx1: Uint32,
    lockTimeTx2: Uint32,
    state: State,
    reason: Uint32,
    created: Time,
    txtime: Time,
    binTxId: string,
    binTx: string,
    payTxId: string,
    payTx: string,
    refTxId: string,
    refTx: string,
    multisig: string,
    innerScript: string,
    packet: PacketPtr,
    mPubKey: PubKey,
    mSecret: Secret,
    xPubKey: PubKey,
    xSecret: Secret)

  /** `isLocal()`: both addresses of the trade are known to this node. */
  predicate IsLocal(d: Descr)
    ensures IsLocal(d) <==> d.from != [] && d.to != []
  {
    |d.from| != 0 && |d.to| != 0
  }

  /** `operator<`: created strictly earlier. */
  predicate Less(a: Descr, b: Descr)
    ensures Less(a, b) <==> Greater(b, a)
    ensures Less(a, b) ==> a.created != b.created
  {
    a.created < b.created
  }

  /** `operator>`: created strictly later. */
  predicate Greater(a: Descr, b: Descr)
    ensures Greater(a, b) ==> a.created != b.created
  {
    a.created > b.created
  }

  /** Both orders are strict (irreflexive, asymmetric, transitive), each is
      the converse of the other, and they look at `created` only. */
  lemma OrdersAreStrictAndConverse(a: Descr, b: Descr, c: Descr)
    ensures !Less(a, a) && !Greater(a, a)
    ensures Less(a, b) ==> !Less(b, a)
    ensures Less(a, b) && Less(b, c) ==> Less(a, c)
    ensures Less(a, b) <==> Greater(b, a)
    ensures !Less(a, b) && !Less(b, a) <==> a.created == b.created
  {
  }

  /** Every field that `copyFrom` copies: all but `packet`, `created` and
      `txtime`. */
  predicate SameCopiedFields(a: Descr, b: Descr)
  {
    && a.id == b.id && a.role == b.role
    && a.from == b.from && a.fromCurrency == b.fromCurrency && a.fromAmount == b.fromAmount
    && a.to == b.to && a.toCurrency == b.toCurrency && a.toAmount == b.toAmount
    && a.tax == b.tax && a.lockTimeTx1 == b.lockTimeTx1 && a.lockTimeTx2 == b.lockTimeTx2
    && a.state == b.state && a.reason == b.reason
    && a.binTxId == b.binTxId && a.binTx == b.binTx
    && a.payTxId == b.payTxId && a.payTx == b.payTx
    && a.refTxId == b.refTxId && a.refTx == b.refTx
    && a.multisig == b.multisig && a.innerScript == b.innerScript
    && a.mPubKey == b.mPubKey && a.mSecret == b.mSecret
    && a.xPubKey == b.xPubKey && a.xSecret == b.xSecret
    && a.hubAddress == b.hubAddress && a.confirmAddress == b.confirmAddress
  }

  /** The value after `updateTimestamp(d)` at time `now`. */
  function AfterUpdateTimestamp(self: Descr, d: Descr, now: Time): (r: Descr)
    ensures r.txtime == now
    ensures r.created <= self.created && r.created <= d.created
    ensures r.created == self.created || r.created == d.created
    ensures SameCopiedFields(r, self) && r.packet == self.packet
  {
    self.(txtime := now, created := if self.created > d.created then d.created else self.created)
  }

  /** The value after `copyFrom(d)` at time `now`. */
  function AfterCopy(self: Descr, d: Descr, now: Time): (r: Descr)
    ensures SameCopiedFields(r, d)
    ensures r.packet == self.packet
    ensures r.txtime == now
    ensures r.created <= self.created && r.created <= d.created
    ensures r.created == self.created || r.created == d.created
  {
    var copied := d.(packet := self.packet, created := self.created, txtime := self.txtime);
    AfterUpdateTimestamp(copied, d, now)
  }

  /** Repeated timestamp merges keep the earliest `created` ever seen. */
  lemma {:induction false} UpdatesKeepEarliest(self: Descr, ds: seq<Descr>, now: Time)
    ensures var r := UpdateAll(self, ds, now);
      && r.created <= self.created
      && (forall i :: 0 <= i < |ds| ==> r.created <= ds[i].created)
      && (r.created == self.created || exists i :: 0 <= i < |ds| && r.created == ds[i].created)
    decreases |ds|
  {
    if ds != [] {
      var first := AfterUpdateTimestamp(self, ds[0], now);
      UpdatesKeepEarliest(first, ds[1..], now);
      var r := UpdateAll(self, ds, now);
      assert r == UpdateAll(first, ds[1..], now);
      forall i | 0 <= i < |ds|
        ensures r.created <= ds[i].created
      {
        if i > 0 { assert ds[i] == ds[1..][i - 1]; }
      }
      if r.created != self.created && r.created != first.created {
        var j :| 0 <= j < |ds[1..]| && r.created == ds[1..][j].created;
        assert r.created == ds[j + 1].created;
      }
    }
  }

  /** `updateTimestamp` applied with each of `ds` in turn. */
  function UpdateAll(self: Descr, ds: seq<Descr>, now: Time): Descr
    decreases |ds|
  {
    if ds == [] then self else UpdateAll(AfterUpdateTimestamp(self, ds[0], now), ds[1..], now)
  }

  /** Copying the same source twice is the same as copying it once, at the
      later time. */
  lemma CopyIsIdempotent(self: Descr, d: Descr, t1: Time, t2: Time)
    ensures AfterCopy(AfterCopy(self, d, t1), d, t2) == AfterCopy(self, d, t2)
  {
  }

  /** A copy has the source's locality and state label, and is never later
      than either the source or the record it overwrote. */
  lemma CopyKeepsLocalityStateAndOrder(self: Descr, d: Descr, now: Time)
    ensures IsLocal(AfterCopy(self, d, now)) == IsLocal(d)
    ensures StrState(AfterCopy(self, d, now).state) == StrState(d.state)
    ensures !Greater(AfterCopy(self, d, now), d) && !Greater(AfterCopy(self, d, now), self)
  {
  }

  /** Copying a record onto itself changes only `txtime`; this is all that
      the self-assignment guard of `operator=` protects. */
  lemma SelfCopyOnlyRefreshesTxtime(self: Descr, now: Time)
    ensures AfterCopy(self, self, now) == self.(txtime := now)
  {
  }

  /** `XBridgeTransactionDescr`, field for field. */
  class TransactionDescr {
    var id: Uint256
    var role: Char
    var hubAddress: seq<Byte>
    var confirmAddress: seq<Byte>
    var from: string
    var fromCurrency: string
    var fromAmount: Uint64
    var to: string
    var toCurrency: string
    var toAmount: Uint64
    var tax: Uint32
    var lockTimeTx1: Uint32
    var lockTimeTx2: Uint32
    var state: State
    var reason: Uint32
    var created: Time
    var txtime: Time
    var binTxId: string
    var binTx: string
    var payTxId: string
    var payTx: string
    var refTxId: string
    var refTx: string
    var multisig: string
    var innerScript: string
    var packet: PacketPtr
    var mPubKey: PubKey
    var mSecret: Secret
    var xPubKey: PubKey
    var xSecret: Secret

    /** The value the record currently holds. */
    function Snapshot(): Descr
      reads this
    {
      Descr(id, role, hubAddress, confirmAddress, from, fromCurrency, fromAmount,
            to, toCurrency, toAmount, tax, lockTimeTx1, lockTimeTx2, state, reason,
            created, txtime, binTxId, binTx, payTxId, payTx, refTxId, refTx,
            multisig, innerScript, packet, mPubKey, mSecret, xPubKey, xSecret)
    }

    /** The default constructor at time `now`. The amounts are left
        uninitialised, so nothing is promised about them. */
    constructor (now: Time)
      ensures role == 0 && tax == 0 && lockTimeTx1 == 0 && lockTimeTx2 == 0
      ensures state == New && reason == 0
      ensures created == now && txtime == now
      ensures id == 0 && packet == None && !IsLocal(Snapshot())
      ensures from == [] && to == []
      ensures hubAddress == [] && confirmAddress == []
      ensures fromCurrency == [] && toCurrency == []
      ensures binTxId == [] && binTx == [] && payTxId == [] && payTx == []
      ensures refTxId == [] && refTx == [] && multisig == [] && innerScript == []
    {
      role, tax, lockTimeTx1, lockTimeTx2 := 0, 0, 0, 0;
      state, reason := New, 0;
      created, txtime := now, now;
      id, packet := 0, None;
      hubAddress, confirmAddress := [], [];
      from, fromCurrency, to, toCurrency := [], [], [], [];
      binTxId, binTx, payTxId, payTx := [], [], [], [];
      refTxId, refTx, multisig, innerScript := [], [], [], [];
    }

    /** The copy constructor at time `now`: the provisional state `trNew`
        and timestamps are overwritten by `copyFrom(d)`, so the copy carries
        `d`'s state and the earlier of `now` and `d.created`; the packet is
        not copied and stays null. */
    constructor Copy(d: TransactionDescr, now: Time)
      ensures SameCopiedFields(Snapshot(), d.Snapshot())
      ensures state == d.state && packet == None
      ensures created == (if now > d.created then d.created else now)
      ensures txtime == now
    {
      state := New;
      created := now;
      txtime := now;
      packet := None;
      new;
      CopyFrom(d, now);
    }

    /** `operator=`: assigning a record to itself changes nothing, not even
        `txtime`; any other assignment is `copyFrom`. */
    method Assign(d: TransactionDescr, now: Time)
      modifies this
      ensures this == d ==> Snapshot() == old(Snapshot())
      ensures this != d ==> Snapshot() == AfterCopy(old(Snapshot()), old(d.Snapshot()), now)
    {
      if this == d {
        return;
      }
      CopyFrom(d, now);
    }

    /** `updateTimestamp(d)`: refresh `txtime`, keep the earlier `created`. */
    method UpdateTimestamp(d: TransactionDescr, now: Time)
      modifies this`txtime, this`created
      ensures txtime == now
      ensures created == if old(created) > old(d.created) then old(d.created) else old(created)
    {
      txtime := now;
      if created > d.created {
        created := d.created;
      }
    }

    /** `copyFrom(d)`: copy the terms, state, artifacts, keys and addresses
        field by field, then merge the timestamps. The packet is not copied.
        The copy reads `d` once, which is the same whether or not `d` is
        this record, since each field is assigned its own counterpart.
        The grouping into `CopyTerms` and `CopyArtifacts` and their four
        helpers has no counterpart in the source: it only splits the one
        list of assignments so that each piece is proved on its own. */
    method CopyFrom(d: TransactionDescr, now: Time)
      modifies this
      ensures SameCopiedFields(Snapshot(), old(d.Snapshot()))
      ensures packet == old(packet) && txtime == now
      ensures created == if old(created) > old(d.created) then old(d.created) else old(created)
    {
      var v := d.Snapshot();
      CopyTerms(v);
      CopyArtifacts(v);
      UpdateTimestamp(d, now);
    }

    /** The trade terms and the lifecycle fields, in the source's order. */
    method CopyTerms(v: Descr)
      modifies this`id, this`role, this`from, this`fromCurrency
      modifies this`fromAmount, this`to, this`toCurrency
      modifies this`toAmount, this`tax, this`lockTimeTx1, this`lockTimeTx2, this`state, this`reason
      ensures id == v.id && role == v.role
      ensures from == v.from && fromCurrency == v.fromCurrency
      ensures fromAmount == v.fromAmount && to == v.to
      ensures toCurrency == v.toCurrency
      ensures toAmount == v.toAmount && tax == v.tax
      ensures lockTimeTx1 == v.lockTimeTx1 && lockTimeTx2 == v.lockTimeTx2
      ensures state == v.state && reason == v.reason
    {
      CopyTradeTerms(v);
      CopyLifecycle(v);
    }

    /** The raw transactions, scripts, keys and addresses. */
    method CopyArtifacts(v: Descr)
      modifies this`binTxId, this`binTx, this`payTxId, this`payTx, this`refTxId, this`refTx
      modifies this`multisig, this`innerScript, this`mPubKey, this`mSecret
      modifies this`xPubKey, this`xSecret, this`hubAddress, this`confirmAddress
      ensures payTx == v.payTx && refTx == v.refTx
      ensures binTxId == v.binTxId && binTx == v.binTx
      ensures payTxId == v.payTxId && refTxId == v.refTxId
      ensures multisig == v.multisig && innerScript == v.innerScript
      ensures mPubKey == v.mPubKey && mSecret == v.mSecret
      ensures xPubKey == v.xPubKey && xSecret == v.xSecret
      ensures hubAddress == v.hubAddress && confirmAddress == v.confirmAddress
    {
      CopyRawTransactions(v);
      CopyScriptKeysAndAddresses(v);
    }

    /** The id, role, and the offered side of the trade. */
    method CopyTradeTerms(v: Descr)
      modifies this`id, this`role, this`from, this`fromCurrency
      modifies this`fromAmount, this`to, this`toCurrency
      ensures id == v.id && role == v.role
      ensures from == v.from && fromCurrency == v.fromCurrency
      ensures fromAmount == v.fromAmount && to == v.to
      ensures toCurrency == v.toCurrency
    {
      id := v.id;
      role := v.role;
      from := v.from;
      fromCurrency := v.fromCurrency;
      fromAmount := v.fromAmount;
      to := v.to;
      toCurrency := v.toCurrency;
    }

    /** The requested amount, tax, lock times, state and reason. */
    method CopyLifecycle(v: Descr)
      modifies this`toAmount, this`tax, this`lockTimeTx1, this`lockTimeTx2, this`state, this`reason
      ensures toAmount == v.toAmount && tax == v.tax
      ensures lockTimeTx1 == v.lockTimeTx1 && lockTimeTx2 == v.lockTimeTx2
      ensures state == v.state && reason == v.reason
    {
      toAmount := v.toAmount;
      tax := v.tax;
      lockTimeTx1 := v.lockTimeTx1;
      lockTimeTx2 := v.lockTimeTx2;
      state := v.state;
      reason := v.reason;
    }

    /** The raw deposit, payment and refund transactions and their ids
        (`payTx` and `refTx` are assigned twice in the source, to the same
        value). */
    method CopyRawTransactions(v: Descr)
      modifies this`binTxId, this`binTx, this`payTxId, this`payTx, this`refTxId, this`refTx
      ensures payTx == v.payTx && refTx == v.refTx
      ensures binTxId == v.binTxId && binTx == v.binTx
      ensures payTxId == v.payTxId && refTxId == v.refTxId
    {
      payTx := v.payTx;
      refTx := v.refTx;
      binTxId := v.binTxId;
      binTx := v.binTx;
      payTxId := v.payTxId;
      payTx := v.payTx;
      refTxId := v.refTxId;
      refTx := v.refTx;
    }

    /** The multisig address, the redeem script, both key pairs and the hub
        and confirmation addresses. */
    method CopyScriptKeysAndAddresses(v: Descr)
      modifies this`multisig, this`innerScript, this`mPubKey, this`mSecret
      modifies this`xPubKey, this`xSecret, this`hubAddress, this`confirmAddress
      ensures multisig == v.multisig && innerScript == v.innerScript
      ensures mPubKey == v.mPubKey && mSecret == v.mSecret
      ensures xPubKey == v.xPubKey && xSecret == v.xSecret
      ensures hubAddress == v.hubAddress && confirmAddress == v.confirmAddress
    {
      multisig := v.multisig;
      innerScript := v.innerScript;
      mPubKey := v.mPubKey;
      mSecret := v.mSecret;
      xPubKey := v.xPubKey;
      xSecret := v.xSecret;
      hubAddress := v.hubAddress;
      confirmAddress := v.confirmAddress;
    }
  }
}
