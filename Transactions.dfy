/** The foreign collaborators the context accessor and the RPC interceptor consult:
    the propagated transaction context and the active compensable transaction. Their
    implementations are not part of this model; the transaction is abstract state that
    records the calls it receives. */
module Transactions {
  import opened Outcomes
  import opened Xids

  /** The `javax.transaction.Status` code of a transaction marked rollback-only. */
  const STATUS_MARKED_ROLLBACK: int := 1

  /** The propagated envelope: identifier, node that propagated it, and whether the
      transaction is replaying confirm/cancel. */
  datatype TransactionContext = TransactionContext(xid: Xid, propagatedBy: Option<string>, compensating: bool)

  /** Stand-in for `TransactionContext.clone()`: a copy of the identifier and the
      compensating flag, without the propagation source. */
  function Clone(c: TransactionContext): TransactionContext
  {
    TransactionContext(c.xid, None, c.compensating)
  }

  /** A remote coordinator handle, known by its identifier. */
  datatype RemoteCoordinator = RemoteCoordinator(identifier: string)

  /** A remote coordinator wrapped as an XA resource; the identifier is set only when
      enlisting. */
  datatype RemoteResourceDescriptor = RemoteResourceDescriptor(delegate: RemoteCoordinator, identifier: Option<string>)

  /** A call received by the transaction. */
  datatype TransactionCall =
    | EnlistResource(descriptor: RemoteResourceDescriptor)
    | DelistResource(descriptor: RemoteResourceDescriptor, flag: int)
    | SetRollbackOnlyQuietly

  /** A transaction variable, by its serialized form. */
  datatype Variable = Variable(serialized: seq<byte>)

  class CompensableTransaction {
    var transactionContext: TransactionContext
    var transactionStatus: int
    var rollbackOnly: bool
    var currentCompensableServiceTried: bool
    var variables: map<string, Variable>
    var calls: seq<TransactionCall>

    constructor (context: TransactionContext, status: int)
      ensures transactionContext == context && transactionStatus == status
      ensures !rollbackOnly && !currentCompensableServiceTried
      ensures variables == map[] && calls == []
    {
      transactionContext := context;
      transactionStatus := status;
      rollbackOnly := false;
      currentCompensableServiceTried := false;
      variables := map[];
      calls := [];
    }
  }
}
