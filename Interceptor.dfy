/** The four RPC hooks that propagate a compensable transaction across a remote call
    (bytetcc-supports .../supports/rpc/CompensableInterceptorImpl.java).
    The transaction manager's lookup is the `transaction` parameter (null when no
    compensable transaction is active); what a foreign call would answer (enlist,
    delist, start, end) is a parameter too, and every call made is recorded. */
module Interceptor {
  import opened Outcomes
  import opened Xids
  import opened Transactions

  /** `XAResource` flags. */
  const TMNOFLAGS: int := 0
  const TMSUCCESS: int := 0x0400_0000
  const TMFAIL: int := 0x2000_0000

  /** The outbound or inbound request, as the hooks see it. */
  class TransactionRequest {
    var transactionContext: Option<TransactionContext>
    var participantEnlistFlag: bool
    const targetTransactionCoordinator: RemoteCoordinator

    constructor (target: RemoteCoordinator, context: Option<TransactionContext>)
      ensures targetTransactionCoordinator == target && transactionContext == context
      ensures !participantEnlistFlag
    {
      targetTransactionCoordinator := target;
      transactionContext := context;
      participantEnlistFlag := false;
    }
  }

  class TransactionResponse {
    var transactionContext: Option<TransactionContext>
    var participantEnlistFlag: bool
    var participantDelistFlag: bool
    const sourceTransactionCoordinator: Option<RemoteCoordinator>

    constructor (source: Option<RemoteCoordinator>, context: Option<TransactionContext>)
      ensures sourceTransactionCoordinator == source && transactionContext == context
      ensures !participantEnlistFlag && !participantDelistFlag
    {
      sourceTransactionCoordinator := source;
      transactionContext := context;
      participantEnlistFlag := false;
      participantDelistFlag := false;
    }
  }

  /** A branch operation received by the compensable participant. */
  datatype ParticipantCall = Start(context: TransactionContext, flags: int) | End(context: TransactionContext, flags: int)

  /** The local compensable participant, reduced to the branch calls it receives. */
  class CompensableParticipant {
    var calls: seq<ParticipantCall>

    constructor ()
      ensures calls == []
    {
      calls := [];
    }
  }

  /** How `enlistResource` ended: it returned a flag, or threw one of three exceptions. */
  datatype EnlistReply = Enlisted(enlisted: bool) | EnlistIllegalState | EnlistRollback | EnlistSystem

  /** How `delistResource` ended. */
  datatype DelistReply = Delisted | DelistIllegalState | DelistSystem

  /** How a participant's `start` or `end` ended: normally, or with an `XAException`. */
  datatype XaReply = XaOk | XaThrew(errorCode: int)

  /** Every hook failure is an `IllegalStateException`; the model keeps its cause. */
  datatype HookError =
    | RollbackOnlyNotPropagated   // "Transaction has been marked as rollback only, ..."
    | Rethrown                    // the transaction's own IllegalStateException, unchanged
    | WrappedRollback             // wraps a RollbackException
    | WrappedSystem               // wraps a SystemException
    | WrappedXa(errorCode: int)   // wraps an XAException
    | RemoteCoordinatorIsNull     // "remote coordinator is null."

  /** The context attached to an outbound request: a clone whose identifier is the
      compensable global identifier of the current transaction id. */
  function OutboundContext(source: TransactionContext): (r: TransactionContext)
    ensures r.xid.formatId == TCC_FORMAT_ID
    ensures r.xid.globalTransactionId == source.xid.globalTransactionId
    ensures r.xid.branchQualifier == []
    ensures r.compensating == source.compensating
  {
    Clone(source).(xid := Xid(TCC_FORMAT_ID, source.xid.globalTransactionId, []))
  }

  /** The context carried by an inbound request or an outbound response: a clone that
      keeps the propagation source. */
  function PropagatedContext(source: TransactionContext): (r: TransactionContext)
    ensures r == source
  {
    Clone(source).(propagatedBy := source.propagatedBy)
  }

  /** How an enlistment's outcome reaches the caller of `beforeSendRequest`. */
  function EnlistOutcome(reply: EnlistReply): (r: Result<bool, HookError>)
    ensures r.Success? <==> reply.Enlisted?
    ensures reply.Enlisted? ==> r.value == reply.enlisted
    ensures reply.EnlistIllegalState? ==> r.error == Rethrown
    ensures reply.EnlistRollback? ==> r.error == WrappedRollback
    ensures reply.EnlistSystem? ==> r.error == WrappedSystem
  {
    match reply
    case Enlisted(b) => Success(b)
    case EnlistIllegalState => Failure(Rethrown)
    case EnlistRollback => Failure(WrappedRollback)
    case EnlistSystem => Failure(WrappedSystem)
  }

  function XaOutcome(reply: XaReply): (r: Result<(), HookError>)
    ensures r.Success? <==> reply.XaOk?
    ensures reply.XaThrew? ==> r == Failure(WrappedXa(reply.errorCode))
  {
    match reply
    case XaOk => Success(())
    case XaThrew(code) => Failure(WrappedXa(code))
  }

  function DelistOutcome(reply: DelistReply): (r: Result<(), HookError>)
    ensures r.Success? <==> reply.Delisted?
    ensures reply.DelistIllegalState? ==> r == Failure(Rethrown)
    ensures reply.DelistSystem? ==> r == Failure(WrappedSystem)
  {
    match reply
    case Delisted => Success(())
    case DelistIllegalState => Failure(Rethrown)
    case DelistSystem => Failure(WrappedSystem)
  }

  /** The delist flag a response's failure marker selects. */
  function DelistFlag(participantDelistFlag: bool): (flag: int)
    ensures flag == TMFAIL <==> participantDelistFlag
    ensures flag == TMSUCCESS <==> !participantDelistFlag
  {
    if participantDelistFlag then TMFAIL else TMSUCCESS
  }

  class CompensableInterceptor {
    const xidFactory: XidFactoryImpl
    const compensableParticipant: CompensableParticipant

    constructor (xidFactory: XidFactoryImpl, participant: CompensableParticipant)
      ensures this.xidFactory == xidFactory && compensableParticipant == participant
    {
      this.xidFactory := xidFactory;
      this.compensableParticipant := participant;
    }

    /** Propagate the active transaction to an outbound request, failing fast when it is
        rollback-only, then enlist the target coordinator and record whether that
        enlisted it. */
    method BeforeSendRequest(request: TransactionRequest, transaction: CompensableTransaction?, reply: EnlistReply)
      returns (r: Result<(), HookError>)
      modifies request, transaction
      ensures transaction == null ==> r == Success(()) && unchanged(request)
      ensures transaction != null ==>
        && request.transactionContext == Some(OutboundContext(old(transaction.transactionContext)))
        && transaction.transactionContext == old(transaction.transactionContext)
        && transaction.transactionStatus == old(transaction.transactionStatus)
        && transaction.variables == old(transaction.variables)
        && transaction.currentCompensableServiceTried == old(transaction.currentCompensableServiceTried)
      ensures transaction != null && old(transaction.transactionStatus) == STATUS_MARKED_ROLLBACK ==>
        && r == Failure(RollbackOnlyNotPropagated)
        && unchanged(transaction)
        && request.participantEnlistFlag == old(request.participantEnlistFlag)
      ensures transaction != null && old(transaction.transactionStatus) != STATUS_MARKED_ROLLBACK ==>
        var target := request.targetTransactionCoordinator;
        var enlist := EnlistResource(RemoteResourceDescriptor(target, Some(target.identifier)));
        && transaction.calls == old(transaction.calls) + [enlist] + (if reply.EnlistRollback? then [SetRollbackOnlyQuietly] else [])
        && transaction.rollbackOnly == (old(transaction.rollbackOnly) || reply.EnlistRollback?)
        && r == (if reply.Enlisted? then Success(()) else Failure(EnlistOutcome(reply).error))
        && request.participantEnlistFlag == (if reply.Enlisted? then reply.enlisted else old(request.participantEnlistFlag))
    {
      if transaction == null {
        return Success(());
      }
      var srcTransactionContext := transaction.transactionContext;
      var transactionContext := Clone(srcTransactionContext);
      var globalXid := xidFactory.CreateGlobalXidFor(srcTransactionContext.xid.globalTransactionId);
      transactionContext := transactionContext.(xid := globalXid.Value());
      request.transactionContext := Some(transactionContext);

      if transaction.transactionStatus == STATUS_MARKED_ROLLBACK {
        return Failure(RollbackOnlyNotPropagated);
      }

      var resource := request.targetTransactionCoordinator;
      var descriptor := RemoteResourceDescriptor(resource, Some(resource.identifier));
      transaction.calls := transaction.calls + [EnlistResource(descriptor)];
      match reply {
        case Enlisted(participantEnlisted) =>
          request.participantEnlistFlag := participantEnlisted;
          r := Success(());
        case EnlistIllegalState =>
          r := Failure(Rethrown);
        case EnlistRollback =>
          transaction.rollbackOnly := true;
          transaction.calls := transaction.calls + [SetRollbackOnlyQuietly];
          r := Failure(WrappedRollback);
        case EnlistSystem =>
          r := Failure(WrappedSystem);
      }
    }

    /** Start a branch for the context an inbound request carries, if it carries one. */
    method AfterReceiveRequest(request: TransactionRequest, reply: XaReply) returns (r: Result<(), HookError>)
      modifies compensableParticipant
      ensures request.transactionContext.None? ==> r == Success(()) && unchanged(compensableParticipant)
      ensures request.transactionContext.Some? ==>
        && compensableParticipant.calls ==
             old(compensableParticipant.calls) + [Start(PropagatedContext(request.transactionContext.value), TMNOFLAGS)]
        && r == XaOutcome(reply)
    {
      if request.transactionContext.None? {
        return Success(());
      }
      var srcTransactionContext := request.transactionContext.value;
      var transactionContext := Clone(srcTransactionContext);
      transactionContext := transactionContext.(propagatedBy := srcTransactionContext.propagatedBy);
      compensableParticipant.calls := compensableParticipant.calls + [Start(transactionContext, TMNOFLAGS)];
      r := XaOutcome(reply);
    }

    /** Attach the active transaction's context to the response and end the branch. */
    method BeforeSendResponse(response: TransactionResponse, transaction: CompensableTransaction?, reply: XaReply)
      returns (r: Result<(), HookError>)
      modifies response, compensableParticipant
      ensures transaction == null ==> r == Success(()) && unchanged(response, compensableParticipant)
      ensures transaction != null ==>
        && response.transactionContext == Some(PropagatedContext(transaction.transactionContext))
        && response.participantEnlistFlag == old(response.participantEnlistFlag)
        && response.participantDelistFlag == old(response.participantDelistFlag)
        && compensableParticipant.calls ==
             old(compensableParticipant.calls) + [End(PropagatedContext(transaction.transactionContext), TMSUCCESS)]
        && r == XaOutcome(reply)
    {
      if transaction == null {
        return Success(());
      }
      var srcTransactionContext := transaction.transactionContext;
      var transactionContext := Clone(srcTransactionContext);
      transactionContext := transactionContext.(propagatedBy := srcTransactionContext.propagatedBy);
      response.transactionContext := Some(transactionContext);
      compensableParticipant.calls := compensableParticipant.calls + [End(transactionContext, TMSUCCESS)];
      r := XaOutcome(reply);
    }

    /** Delist the responder's coordinator when the matching request enlisted it. */
    method AfterReceiveResponse(response: TransactionResponse, transaction: CompensableTransaction?, reply: DelistReply)
      returns (r: Result<(), HookError>)
      modifies transaction
      ensures transaction == null || response.transactionContext.None? || !response.participantEnlistFlag ==>
        r == Success(()) && (transaction != null ==> unchanged(transaction))
      ensures transaction != null && response.transactionContext.Some? && response.participantEnlistFlag
              && response.sourceTransactionCoordinator.None? ==>
        r == Failure(RemoteCoordinatorIsNull) && unchanged(transaction)
      ensures transaction != null && response.transactionContext.Some? && response.participantEnlistFlag
              && response.sourceTransactionCoordinator.Some? ==>
        var descriptor := RemoteResourceDescriptor(response.sourceTransactionCoordinator.value, None);
        && transaction.calls == old(transaction.calls) + [DelistResource(descriptor, DelistFlag(response.participantDelistFlag))]
        && transaction.transactionContext == old(transaction.transactionContext)
        && transaction.transactionStatus == old(transaction.transactionStatus)
        && transaction.rollbackOnly == old(transaction.rollbackOnly)
        && transaction.currentCompensableServiceTried == old(transaction.currentCompensableServiceTried)
        && transaction.variables == old(transaction.variables)
        && r == DelistOutcome(reply)
    {
      var remoteTransactionContext := response.transactionContext;
      var participantEnlistFlag := response.participantEnlistFlag;
      var participantDelistFlag := response.participantDelistFlag;
      var resource := response.sourceTransactionCoordinator;
      if transaction == null || remoteTransactionContext.None? {
        return Success(());
      } else if !participantEnlistFlag {
        return Success(());
      } else if resource.None? {
        return Failure(RemoteCoordinatorIsNull);
      }
      var descriptor := RemoteResourceDescriptor(resource.value, None);
      transaction.calls := transaction.calls + [DelistResource(descriptor, if participantDelistFlag then TMFAIL else TMSUCCESS)];
      r := DelistOutcome(reply);
    }
  }

  /** One remote call seen from the caller: the request enlists the target, the
      transport hands the enlist flag and the responder's failure marker back on the
      response, and the response delists the responder with TMFAIL exactly when it
      reported a failure; when the request did not enlist, nothing is delisted. */
  method RemoteCallBracket(interceptor: CompensableInterceptor, transaction: CompensableTransaction,
                           target: RemoteCoordinator, enlisted: bool, delistFailure: bool)
    returns (r: Result<(), HookError>)
    requires transaction.transactionStatus != STATUS_MARKED_ROLLBACK
    modifies transaction
    ensures r == Success(())
    ensures enlisted ==>
      transaction.calls == old(transaction.calls) + [
        EnlistResource(RemoteResourceDescriptor(target, Some(target.identifier))),
        DelistResource(RemoteResourceDescriptor(target, None), if delistFailure then TMFAIL else TMSUCCESS)]
    ensures !enlisted ==>
      transaction.calls == old(transaction.calls) + [EnlistResource(RemoteResourceDescriptor(target, Some(target.identifier)))]
  {
    var request := new TransactionRequest(target, None);
    r := interceptor.BeforeSendRequest(request, transaction, Enlisted(enlisted));
    // On the responder's side `beforeSendResponse` attaches the context; the caller's
    // `afterReceiveResponse` only asks whether one is present, so the outbound one
    // stands in for it here.
    var response := new TransactionResponse(Some(target), request.transactionContext);
    response.participantEnlistFlag := request.participantEnlistFlag;
    response.participantDelistFlag := delistFailure;
    r := interceptor.AfterReceiveResponse(response, transaction, Delisted);
  }
}
