/** Guarded access to the active transaction's variables and retry flag
    (bytetcc-core .../bytetcc/CompensableContextImpl.java). */
module CompensableContext {
  import opened Outcomes
  import opened Transactions

  /** What the bean factory yields: no compensable manager at all, or a manager whose
      `getCompensableTransactionQuietly()` answered with `transaction` (null when no
      transaction is active). */
  datatype ManagerBinding = Undefined | Bound(transaction: CompensableTransaction?) {

    predicate Active()
    {
      Bound? && transaction != null
    }

    function Footprint(): set<object>
    {
      if Active() then {transaction} else {}
    }
  }

  /** The `IllegalStateException`s the accessor raises, by message. */
  datatype ContextError =
    | ManagerUndefined              // "...CompensableManager is undefined!"
    | NoActiveTransaction           // "There is no active compensable transaction!"
    | ForbiddenInCompensablePhase   // "...setVariable(String) is forbidden in compensable phase!"

  /** The guards every accessor starts with. */
  function Guard(binding: ManagerBinding): (r: Option<ContextError>)
    ensures r.None? <==> binding.Active()
    ensures binding.Undefined? ==> r == Some(ManagerUndefined)
    ensures binding.Bound? && binding.transaction == null ==> r == Some(NoActiveTransaction)
  {
    if binding.Undefined? then Some(ManagerUndefined)
    else if binding.transaction == null then Some(NoActiveTransaction)
    else None
  }

  /** `isCurrentCompensableServiceTried`: the transaction's own flag while it is
      compensating, and false outside that phase whatever the flag says. */
  function IsCurrentCompensableServiceTried(binding: ManagerBinding): (r: Result<bool, ContextError>)
    reads binding.Footprint()
    ensures r.Failure? <==> !binding.Active()
    ensures r.Failure? ==> Some(r.error) == Guard(binding)
    ensures binding.Active() && !binding.transaction.transactionContext.compensating ==> r == Success(false)
    ensures binding.Active() && binding.transaction.transactionContext.compensating ==>
      r == Success(binding.transaction.currentCompensableServiceTried)
  {
    match Guard(binding)
    case Some(e) => Failure(e)
    case None =>
      var compensable := binding.transaction;
      if compensable.transactionContext.compensating then Success(compensable.currentCompensableServiceTried)
      else Success(false)
  }

  /** `getVariable`: the stored value, `None` for a key never set; never a default
      when no transaction is active. */
  function GetVariable(binding: ManagerBinding, key: string): (r: Result<Option<Variable>, ContextError>)
    reads binding.Footprint()
    ensures r.Failure? <==> !binding.Active()
    ensures r.Failure? ==> Some(r.error) == Guard(binding)
    ensures r.Success? && r.value.Some? ==>
      key in binding.transaction.variables && binding.transaction.variables[key] == r.value.value
    ensures r.Success? && r.value.None? ==> key !in binding.transaction.variables
  {
    match Guard(binding)
    case Some(e) => Failure(e)
    case None =>
      var variables := binding.transaction.variables;
      if key in variables then Success(Some(variables[key])) else Success(None)
  }

  /** `setVariable`: refused while compensating, so compensation sees a frozen store. */
  method SetVariable(binding: ManagerBinding, key: string, variable: Variable) returns (r: Result<(), ContextError>)
    modifies binding.Footprint()
    ensures !binding.Active() ==> r.Failure? && Some(r.error) == Guard(binding)
    ensures binding.Active() && old(binding.transaction.transactionContext.compensating) ==>
      r == Failure(ForbiddenInCompensablePhase) && unchanged(binding.transaction)
    ensures binding.Active() && !old(binding.transaction.transactionContext.compensating) ==>
      r == Success(()) && binding.transaction.variables == old(binding.transaction.variables)[key := variable]
    ensures binding.Active() ==>
      && binding.transaction.transactionContext == old(binding.transaction.transactionContext)
      && binding.transaction.transactionStatus == old(binding.transaction.transactionStatus)
      && binding.transaction.rollbackOnly == old(binding.transaction.rollbackOnly)
      && binding.transaction.currentCompensableServiceTried == old(binding.transaction.currentCompensableServiceTried)
      && binding.transaction.calls == old(binding.transaction.calls)
  {
    var guard := Guard(binding);
    if guard.Some? {
      return Failure(guard.value);
    }
    var compensable := binding.transaction;
    if compensable.transactionContext.compensating {
      return Failure(ForbiddenInCompensablePhase);
    }
    compensable.variables := compensable.variables[key := variable];
    r := Success(());
  }

  /** A client: outside compensation, a value stored with `setVariable` is what
      `getVariable` then returns; while compensating the store keeps its old value. */
  method SetThenGetVariable(binding: ManagerBinding, key: string, variable: Variable)
    returns (r: Result<Option<Variable>, ContextError>)
    requires binding.Active()
    modifies binding.Footprint()
    ensures !old(binding.transaction.transactionContext.compensating) ==> r == Success(Some(variable))
    ensures old(binding.transaction.transactionContext.compensating) ==>
      r == Success(if key in old(binding.transaction.variables)
                   then Some(old(binding.transaction.variables)[key]) else None)
  {
    var _ := SetVariable(binding, key, variable);
    r := GetVariable(binding, key);
  }
}
