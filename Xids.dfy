/** Transaction identifiers and the compensable identifier factory
    (bytetcc-core .../bytetcc/xa/XidFactoryImpl.java). */
module Xids {

  newtype byte = x: int | 0 <= x < 256

  /** Format identifier of ordinary (two-phase-commit) transactions. */
  const JTA_FORMAT_ID: int := 1207
  /** Format identifier of compensable (Try-Confirm-Cancel) transactions. */
  const TCC_FORMAT_ID: int := 8127

  /** The value of an identifier: what `javax.transaction.xa.Xid` exposes. */
  datatype Xid = Xid(formatId: int, globalTransactionId: seq<byte>, branchQualifier: seq<byte>)

  /** An identifier object whose format id can be overwritten in place. */
  class TransactionXid {
    var formatId: int
    var globalTransactionId: seq<byte>
    var branchQualifier: seq<byte>

    constructor (formatId: int, globalTransactionId: seq<byte>, branchQualifier: seq<byte>)
      ensures Value() == Xid(formatId, globalTransactionId, branchQualifier)
    {
      this.formatId := formatId;
      this.globalTransactionId := globalTransactionId;
      this.branchQualifier := branchQualifier;
    }

    function Value(): Xid
      reads this
    {
      Xid(formatId, globalTransactionId, branchQualifier)
    }

    method SetFormatId(formatId: int)
      modifies this
      ensures Value() == old(Value()).(formatId := formatId)
    {
      this.formatId := formatId;
    }
  }

  /** The compensable factory. It wraps the base generator of ordinary identifiers
      and retags every identifier the base produces. */
  class XidFactoryImpl {

    constructor ()
    {
    }

    /* Stand-ins for the base generator, which is not part of this model: a global
       identifier carries the given transaction id and no branch qualifier; a branch
       identifier carries the global one's transaction id and the given qualifier.
       What format id the base sets is deliberately left unstated. */

    static method BaseGlobalXid(globalTransactionId: seq<byte>) returns (xid: TransactionXid)
      ensures fresh(xid)
      ensures xid.globalTransactionId == globalTransactionId && xid.branchQualifier == []
    {
      xid := new TransactionXid(JTA_FORMAT_ID, globalTransactionId, []);
    }

    static method BaseBranchXid(globalXid: TransactionXid, branchQualifier: seq<byte>) returns (xid: TransactionXid)
      ensures fresh(xid)
      ensures xid.globalTransactionId == globalXid.globalTransactionId
      ensures xid.branchQualifier == branchQualifier
    {
      xid := new TransactionXid(JTA_FORMAT_ID, globalXid.globalTransactionId, branchQualifier);
    }

    /** `createGlobalXid()`: `generated` is the unique transaction id the base draws. */
    method CreateGlobalXid(generated: seq<byte>) returns (xid: TransactionXid)
      ensures fresh(xid)
      ensures xid.Value() == Xid(TCC_FORMAT_ID, generated, [])
    {
      xid := BaseGlobalXid(generated);
      xid.SetFormatId(TCC_FORMAT_ID);
    }

    /** `createGlobalXid(byte[])`: a global identifier for a known transaction id. */
    method CreateGlobalXidFor(globalTransactionId: seq<byte>) returns (xid: TransactionXid)
      ensures fresh(xid)
      ensures xid.Value() == Xid(TCC_FORMAT_ID, globalTransactionId, [])
    {
      xid := BaseGlobalXid(globalTransactionId);
      xid.SetFormatId(TCC_FORMAT_ID);
    }

    /** `createBranchXid(globalXid)`: `generated` is the unique qualifier the base draws.
        The result is compensable whatever the format id of `globalXid`, which is
        left untouched. */
    method CreateBranchXid(globalXid: TransactionXid, generated: seq<byte>) returns (xid: TransactionXid)
      ensures fresh(xid)
      ensures xid.Value() == Xid(TCC_FORMAT_ID, globalXid.globalTransactionId, generated)
    {
      xid := BaseBranchXid(globalXid, generated);
      xid.SetFormatId(TCC_FORMAT_ID);
    }

    /** `createBranchXid(globalXid, branchQualifier)`. */
    method CreateBranchXidWith(globalXid: TransactionXid, branchQualifier: seq<byte>) returns (xid: TransactionXid)
      ensures fresh(xid)
      ensures xid.Value() == Xid(TCC_FORMAT_ID, globalXid.globalTransactionId, branchQualifier)
    {
      xid := BaseBranchXid(globalXid, branchQualifier);
      xid.SetFormatId(TCC_FORMAT_ID);
    }
  }
}
