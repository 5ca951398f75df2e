/** One side of a hub transaction (`XBridgeTransactionMember`): the member's
    id and its source and destination addresses, each kept both as wallet
    text and as the protocol's binary x-address. The two setters overwrite
    their own pair in place and touch nothing else. */
module TransactionMembers {
  import opened Bytes

  class TransactionMember {
    var memberId: Uint256
    var sourceAddr: string
    var sourceXAddr: seq<Byte>
    var destAddr: string
    var destXAddr: seq<Byte>
    var transactionHash: Uint256

    /** The default constructor: zero id, no addresses. */
    constructor ()
      ensures Id() == 0 && IsEmpty()
      ensures Source() == [] && XSource() == [] && Dest() == [] && XDest() == []
      ensures transactionHash == 0
    {
      memberId := 0;
      sourceAddr, sourceXAddr := [], [];
      destAddr, destXAddr := [], [];
      transactionHash := 0;
    }

    /** `XBridgeTransactionMember(id)`: the given id, no addresses yet. */
    constructor WithId(id: Uint256)
      ensures Id() == id && IsEmpty()
      ensures Source() == [] && XSource() == [] && Dest() == [] && XDest() == []
      ensures transactionHash == 0
    {
      memberId := id;
      sourceAddr, sourceXAddr := [], [];
      destAddr, destXAddr := [], [];
      transactionHash := 0;
    }

    /** `isEmpty()`: a member is incomplete while either address text is
        missing; the x-addresses are not consulted. */
    predicate IsEmpty()
      reads this
      ensures IsEmpty() <==> Source() == [] || Dest() == []
    {
      sourceAddr == [] || destAddr == []
    }

    /** `id()` */
    function Id(): Uint256
      reads this
    {
      memberId
    }

    /** `source()` */
    function Source(): string
      reads this
    {
      sourceAddr
    }

    /** `xsource()` */
    function XSource(): seq<Byte>
      reads this
    {
      sourceXAddr
    }

    /** `dest()` */
    function Dest(): string
      reads this
    {
      destAddr
    }

    /** `xdest()` */
    function XDest(): seq<Byte>
      reads this
    {
      destXAddr
    }

    /** `setSource(addr, xaddr)`: replaces the source pair only. */
    method SetSource(addr: string, xaddr: seq<Byte>)
      modifies this
      ensures Source() == addr && XSource() == xaddr
      ensures Dest() == old(Dest()) && XDest() == old(XDest())
      ensures Id() == old(Id()) && transactionHash == old(transactionHash)
      ensures IsEmpty() <==> addr == [] || old(Dest()) == []
    {
      sourceAddr := addr;
      sourceXAddr := xaddr;
    }

    /** `setDest(addr, xaddr)`: replaces the destination pair only. */
    method SetDest(addr: string, xaddr: seq<Byte>)
      modifies this
      ensures Dest() == addr && XDest() == xaddr
      ensures Source() == old(Source()) && XSource() == old(XSource())
      ensures Id() == old(Id()) && transactionHash == old(transactionHash)
      ensures IsEmpty() <==> addr == [] || old(Source()) == []
    {
      destAddr := addr;
      destXAddr := xaddr;
    }
  }

  /** Emptiness depends on the two address texts alone: members that agree
      on them agree on `isEmpty()`, whatever their ids and x-addresses. */
  lemma EmptinessIgnoresXAddresses(a: TransactionMember, b: TransactionMember)
    requires a.Source() == b.Source() && a.Dest() == b.Dest()
    ensures a.IsEmpty() == b.IsEmpty()
  {
  }

  /** A member made by a constructor and then given a non-empty source and a
      non-empty destination, in either order, is no longer empty and keeps
      the id it was built with. */
  method FillMember(id: Uint256, src: string, xsrc: seq<Byte>, dst: string, xdst: seq<Byte>, destFirst: bool)
    returns (m: TransactionMember)
    requires src != [] && dst != []
    ensures fresh(m) && !m.IsEmpty() && m.Id() == id
    ensures m.Source() == src && m.XSource() == xsrc && m.Dest() == dst && m.XDest() == xdst
  {
    m := new TransactionMember.WithId(id);
    if destFirst {
      m.SetDest(dst, xdst);
      m.SetSource(src, xsrc);
    } else {
      m.SetSource(src, xsrc);
      m.SetDest(dst, xdst);
    }
  }
}
