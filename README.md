# ByteTCC coordination glue, modelled in Dafny

This project models the glue layer of ByteTCC, a transaction manager that puts
ordinary two-phase-commit (JTA) branches and compensable Try-Confirm-Cancel (TCC)
transactions behind one XA resource-manager surface. Six pieces are modelled, one
Dafny module each:

- `Coordinator` (`TransactionCoordinator`): routes `prepare`, `commit`, `rollback`,
  `forget` and `forgetQuietly` to the ordinary or the compensable participant by the
  identifier's format id, merges both participants' `recover` results, refuses the
  unsupported XA operations with `XAER_RMERR`, and answers identity queries from the
  compensable participant. The participants are foreign. What one of them would answer
  is a parameter, and each operation returns an `Effect`: the calls each participant
  received, plus the result or the `XAException` code.
- `InvocationRegistry` (`CompensableInvocationRegistry`): a class whose
  `invocationMap` field maps each thread to its stack of invocations (a sequence whose
  last element is the top). The class is specified by the pure functions `Pushed`,
  `Top` and `Popped` and keeps the invariant that no entry holds an empty stack.
- `Xids` (`XidFactoryImpl`): identifier objects with a mutable format id, and the
  factory that retags every identifier its base generator produces with
  `TCC_FORMAT_ID`.
- `CompensableContext` (`CompensableContextImpl`): the guards in front of the active
  transaction's variable store and retry flag.
- `Interceptor` (`CompensableInterceptorImpl`): the four RPC hooks. They act on
  request, response, transaction and participant objects. The transaction records the
  enlist, delist and rollback-only calls it receives, and the participant records its
  `start` and `end` calls.
- `ConfigValidator` (`TransactionConfigDefinitionValidator`): bean definitions as
  records, a per-bean verdict, and the loop that raises the first offender's error.

`Transactions` holds the foreign collaborators these share: the propagated
`TransactionContext` and the abstract `CompensableTransaction`. `Outcomes` holds
`Option` and `Result`. A Java `null` result is `None`, and a thrown exception is
`Failure`.

Four behaviours of the code worth knowing, which the model keeps:

- Every identifier the factory returns, branch identifiers included, carries the
  compensable format id, whatever format id the global identifier it came from carried.
- A missing transaction manager raises an `IllegalStateException`, the same exception
  as a missing transaction.
- `afterReceiveResponse` catches only `IllegalStateException` and `SystemException`
  from delistment, and never marks the transaction rollback-only.
- A `TransactionInterceptor` whose attribute source refers to an undefined bean makes
  the bean factory raise `NoSuchBeanDefinition` before the validator's own error.

Constants: `JTA_FORMAT_ID` = 1207 and `TCC_FORMAT_ID` = 8127 are taken from ByteJTA's
`XidFactory` interface, which is not part of this model. The proofs only need the two
values to differ. `XAER_RMERR` = -3 and `XAER_INVAL` = -5 are the XA error codes.
`TMNOFLAGS` = 0, `TMSUCCESS` = 0x04000000 and `TMFAIL` = 0x20000000 are the XA flags.
`STATUS_MARKED_ROLLBACK` = 1 is from `javax.transaction.Status`.

## Model

| member | source | states |
|---|---|---|
| `Xids.XidFactoryImpl.CreateGlobalXid` | bytetcc-core/src/main/java/org/bytesoft/bytetcc/xa/XidFactoryImpl.java:30-34 | the new identifier is fresh and carries `TCC_FORMAT_ID`, the generated transaction id, and no qualifier |
| `Xids.XidFactoryImpl.CreateGlobalXidFor` | bytetcc-core/src/main/java/org/bytesoft/bytetcc/xa/XidFactoryImpl.java:41-45 | the global identifier for given bytes carries `TCC_FORMAT_ID` and exactly those bytes |
| `Xids.XidFactoryImpl.CreateBranchXid` | bytetcc-core/src/main/java/org/bytesoft/bytetcc/xa/XidFactoryImpl.java:52-56 | the branch identifier carries `TCC_FORMAT_ID` whatever the global identifier's format id, plus the global transaction id and the generated qualifier; the input is not modified |
| `Xids.XidFactoryImpl.CreateBranchXidWith` | bytetcc-core/src/main/java/org/bytesoft/bytetcc/xa/XidFactoryImpl.java:64-68 | the branch identifier carries `TCC_FORMAT_ID`, the global transaction id and the given qualifier; only the format id differs from what the base produced |
| `Coordinator.FamilyOf` | bytetcc-core/src/main/java/org/bytesoft/bytetcc/TransactionCoordinator.java:55-64 | the JTA id selects the ordinary participant and the TCC id the compensable one, both as if-and-only-if; any other id selects neither |
| `Coordinator.Dispatch` | bytetcc-core/src/main/java/org/bytesoft/bytetcc/TransactionCoordinator.java:55-64 | at most one participant receives the call; it is the one named by the format id, and its answer is returned unchanged; with an unknown id nobody is called and `XAER_INVAL` is raised |
| `Coordinator.Prepare` | bytetcc-core/src/main/java/org/bytesoft/bytetcc/TransactionCoordinator.java:49-65 | the JTA id returns exactly the ordinary participant's vote and never calls the compensable one; the TCC id is the mirror case; any other id raises `XAER_INVAL` |
| `Coordinator.Commit` | bytetcc-core/src/main/java/org/bytesoft/bytetcc/TransactionCoordinator.java:75-89 | `onePhase` reaches exactly the selected participant unchanged; an unknown id raises `XAER_INVAL` and calls nobody |
| `Coordinator.Rollback` | bytetcc-core/src/main/java/org/bytesoft/bytetcc/TransactionCoordinator.java:97-109 | the same two-way dispatch; an unknown id raises `XAER_INVAL` |
| `Coordinator.Forget` | bytetcc-core/src/main/java/org/bytesoft/bytetcc/TransactionCoordinator.java:148-160 | the same two-way dispatch; an unknown id raises `XAER_INVAL` |
| `Coordinator.ForgetQuietly` | bytetcc-core/src/main/java/org/bytesoft/bytetcc/TransactionCoordinator.java:166-176 | never raises; it calls the participant the format id names, and with an unknown id it calls neither |
| `Coordinator.Recover` | bytetcc-core/src/main/java/org/bytesoft/bytetcc/TransactionCoordinator.java:120-142 | both participants are asked; it never raises; a participant that throws contributes nothing; the result has length jta+tcc, its prefix is the JTA array in order and its suffix the TCC array in order |
| `Coordinator.Unsupported` | bytetcc-core/src/main/java/org/bytesoft/bytetcc/TransactionCoordinator.java:194-220 | `start`, `end` (both overloads), `isSameRM` and both timeout operations always raise `XAER_RMERR` and reach no participant |
| `Coordinator.GetRemoteAddr` | bytetcc-core/src/main/java/org/bytesoft/bytetcc/TransactionCoordinator.java:178-180 | answers with the compensable participant's address, whatever the ordinary one reports |
| `Coordinator.GetRemoteNode` | bytetcc-core/src/main/java/org/bytesoft/bytetcc/TransactionCoordinator.java:182-184 | answers with the compensable participant's node |
| `Coordinator.GetApplication` | bytetcc-core/src/main/java/org/bytesoft/bytetcc/TransactionCoordinator.java:186-188 | answers with the compensable participant's application |
| `Coordinator.GetIdentifier` | bytetcc-core/src/main/java/org/bytesoft/bytetcc/TransactionCoordinator.java:190-192 | answers with the compensable participant's identifier |
| `Coordinator.RoutingDependsOnFormatIdOnly` | bytetcc-core/src/main/java/org/bytesoft/bytetcc/TransactionCoordinator.java:49-176 | two identifiers with the same format id reach the same participant through every supported operation, and each operation reaches the participant the others reach |
| `InvocationRegistry.Pushed` | bytetcc-core/src/main/java/org/bytesoft/compensable/CompensableInvocationRegistry.java:38-46 | the thread's stack gains the invocation on top and is created when absent; other threads' entries are untouched; no entry becomes empty |
| `InvocationRegistry.Top` | bytetcc-core/src/main/java/org/bytesoft/compensable/CompensableInvocationRegistry.java:52-59 | `None` exactly when the thread has no stack or an empty one; otherwise the top element |
| `InvocationRegistry.Popped` | bytetcc-core/src/main/java/org/bytesoft/compensable/CompensableInvocationRegistry.java:65-80 | with nothing registered the map is unchanged; otherwise the top is removed; the thread's entry disappears exactly when its stack had one element; other threads are untouched; the invariant is kept |
| `InvocationRegistry.CompensableInvocationRegistry.constructor` | bytetcc-core/src/main/java/org/bytesoft/compensable/CompensableInvocationRegistry.java:29 | a new registry has an empty map |
| `InvocationRegistry.CompensableInvocationRegistry.Register` | bytetcc-core/src/main/java/org/bytesoft/compensable/CompensableInvocationRegistry.java:38-46 | the new map is `Pushed` of the old one, and the invariant is kept |
| `InvocationRegistry.CompensableInvocationRegistry.GetCurrent` | bytetcc-core/src/main/java/org/bytesoft/compensable/CompensableInvocationRegistry.java:52-59 | returns `Top` of the map and changes nothing |
| `InvocationRegistry.CompensableInvocationRegistry.UnRegister` | bytetcc-core/src/main/java/org/bytesoft/compensable/CompensableInvocationRegistry.java:65-80 | returns the old `Top`; the new map is `Popped` of the old one, and the invariant is kept |
| `InvocationRegistry.PushThenPop` | bytetcc-core/src/main/java/org/bytesoft/compensable/CompensableInvocationRegistry.java:38-80 | after a push, the top is the pushed invocation, and a pop restores the map exactly |
| `InvocationRegistry.PushAll` | bytetcc-core/src/main/java/org/bytesoft/compensable/CompensableInvocationRegistry.java:38-46 | nested registrations extend the thread's stack by the registered invocations in order and keep the invariant |
| `InvocationRegistry.NestedPairsUnwindLifo` | bytetcc-core/src/main/java/org/bytesoft/compensable/CompensableInvocationRegistry.java:74-79 | unregistering after nested registrations returns the invocations last-first and restores the map; a thread that had no entry ends with none, so `getCurrent` answers `None` |
| `InvocationRegistry.RegisterThenUnRegister` | bytetcc-core/src/main/java/org/bytesoft/compensable/CompensableInvocationRegistry.java:38-80 | a register/unregister pair on the class returns the registered invocation and leaves the map exactly as it was |
| `CompensableContext.Guard` | bytetcc-core/src/main/java/org/bytesoft/bytetcc/CompensableContextImpl.java:40-46 | a missing manager fails with "undefined"; a missing transaction fails with "no active transaction"; it passes exactly when a transaction is active |
| `CompensableContext.IsCurrentCompensableServiceTried` | bytetcc-core/src/main/java/org/bytesoft/bytetcc/CompensableContextImpl.java:39-52 | fails exactly when no transaction is active; false outside the compensating phase whatever the transaction's flag says; the transaction's flag while compensating |
| `CompensableContext.GetVariable` | bytetcc-core/src/main/java/org/bytesoft/bytetcc/CompensableContextImpl.java:59-69 | fails, rather than returning a default, when no transaction is active; otherwise returns the stored value for the key, or `None` when the key is not stored |
| `CompensableContext.SetVariable` | bytetcc-core/src/main/java/org/bytesoft/bytetcc/CompensableContextImpl.java:76-88 | the guards' failures; while compensating it fails and leaves the transaction unchanged; otherwise it stores the value under the key; nothing else of the transaction changes |
| `CompensableContext.SetThenGetVariable` | bytetcc-core/src/main/java/org/bytesoft/bytetcc/CompensableContextImpl.java:59-88 | a value set outside compensation is what `getVariable` returns next; while compensating the old value remains |
| `Interceptor.OutboundContext` | bytetcc-supports/src/main/java/org/bytesoft/bytetcc/supports/rpc/CompensableInterceptorImpl.java:71-75 | the request's context carries a compensable global identifier built from the current transaction id, with no branch qualifier |
| `Interceptor.PropagatedContext` | bytetcc-supports/src/main/java/org/bytesoft/bytetcc/supports/rpc/CompensableInterceptorImpl.java:118-119 | the copy keeps the source's propagation source, so it equals the source context |
| `Interceptor.EnlistOutcome` | bytetcc-supports/src/main/java/org/bytesoft/bytetcc/supports/rpc/CompensableInterceptorImpl.java:90-101 | a returned flag is success; an `IllegalStateException` is rethrown as is; a `RollbackException` and a `SystemException` are each wrapped in an `IllegalStateException` |
| `Interceptor.XaOutcome` | bytetcc-supports/src/main/java/org/bytesoft/bytetcc/supports/rpc/CompensableInterceptorImpl.java:120-127 | an `XAException` from the participant becomes an `IllegalStateException` carrying its code |
| `Interceptor.DelistOutcome` | bytetcc-supports/src/main/java/org/bytesoft/bytetcc/supports/rpc/CompensableInterceptorImpl.java:185-197 | a delistment's `IllegalStateException` is rethrown; a `SystemException` is wrapped |
| `Interceptor.DelistFlag` | bytetcc-supports/src/main/java/org/bytesoft/bytetcc/supports/rpc/CompensableInterceptorImpl.java:190 | `TMFAIL` exactly when the response flags a delist failure, `TMSUCCESS` exactly when it does not |
| `Interceptor.CompensableInterceptor.BeforeSendRequest` | bytetcc-supports/src/main/java/org/bytesoft/bytetcc/supports/rpc/CompensableInterceptorImpl.java:59-103 | no transaction: nothing is attached or enlisted; otherwise the outbound context is attached first; a rollback-only status then fails with nothing enlisted; otherwise the target is enlisted, the enlist flag equals what enlistment returned, and a `RollbackException` marks the transaction rollback-only before failing; the transaction's context, status, variables and tried flag never change |
| `Interceptor.CompensableInterceptor.AfterReceiveRequest` | bytetcc-supports/src/main/java/org/bytesoft/bytetcc/supports/rpc/CompensableInterceptorImpl.java:111-129 | no context: nothing happens; otherwise the participant's `start` receives a copy with the same propagation source and `TMNOFLAGS`; an `XAException` becomes an `IllegalStateException` |
| `Interceptor.CompensableInterceptor.BeforeSendResponse` | bytetcc-supports/src/main/java/org/bytesoft/bytetcc/supports/rpc/CompensableInterceptorImpl.java:137-158 | no transaction: nothing happens; otherwise the response carries a copy of the context with the propagation source kept, and `end` is called with `TMSUCCESS` |
| `Interceptor.CompensableInterceptor.AfterReceiveResponse` | bytetcc-supports/src/main/java/org/bytesoft/bytetcc/supports/rpc/CompensableInterceptorImpl.java:166-198 | no transaction, no remote context or a false enlist flag: nothing happens; otherwise a missing source coordinator fails with "remote coordinator is null"; otherwise the coordinator is delisted with `TMFAIL` or `TMSUCCESS` as the delist flag says, and nothing else of the transaction changes |
| `Interceptor.RemoteCallBracket` | bytetcc-supports/src/main/java/org/bytesoft/bytetcc/supports/rpc/CompensableInterceptorImpl.java:84-190 | a call whose request enlisted the target ends with that target delisted, with failure exactly when the response reported one; a call that did not enlist delists nothing |
| `ConfigValidator.Verdict` | bytetcc-supports/src/main/java/org/bytesoft/bytetcc/supports/spring/TransactionConfigDefinitionValidator.java:37-66 | a `TransactionProxyFactoryBean` is rejected with an error naming it; a `TransactionInterceptor` is accepted exactly when its attribute source refers to a defined `AnnotationTransactionAttributeSource` bean (a missing, null or non-reference value is rejected); beans of any other class are accepted |
| `ConfigValidator.PostProcessBeanFactory` | bytetcc-supports/src/main/java/org/bytesoft/bytetcc/supports/spring/TransactionConfigDefinitionValidator.java:33-69 | returns normally exactly when no bean offends; otherwise raises the error of the first offending bean in definition-name order |
| `ConfigValidator.OrdinaryBeansNeverOffend` | bytetcc-supports/src/main/java/org/bytesoft/bytetcc/supports/spring/TransactionConfigDefinitionValidator.java:36-68 | adding a bean of any other class to an accepted configuration leaves it accepted |

## Left out

- The base identifier generator (ByteJTA's `XidFactoryImpl`) is not part of this model. Two stand-in methods produce an identifier with the given bytes. The unique bytes the base would draw are parameters, and the format id the base sets is left unstated.
- `TransactionContext.clone` is not part of this model. The stand-in `Clone` copies the identifier and the compensating flag and drops the propagation source. That is why the hooks set the propagation source again.
- The JTA and TCC participants, `CompensableTransaction`, the transaction manager and `RemoteResourceDescriptor` are foreign. Their answers are parameters, and the calls they receive are recorded. The effect of `setRollbackOnlyQuietly` on the transaction's status is not modelled; the model only sets the rollback-only flag.
- Concurrency: the real threads and the `ConcurrentHashMap`. The current thread is an explicit parameter, and the registry has single-threaded map semantics.
- Dependency injection, `getBeanFactory`/`setBeanFactory`, the `getInstance` singleton, and logging.
- The Spring API: bean factories, definitions and property values are plain records. The exception message is reduced to the bean name it carries. The validator works on values, so it cannot modify a definition.
- The RPC transport and any wire encoding. `RemoteCallBracket` copies the flags from request to response the way the transport would.
- Null references the source does not guard against: a null manager or a null target coordinator in the interceptor, a null identifier in the coordinator, and a participant whose `recover` returns null instead of an array. Each of these raises a `NullPointerException` in the source. The model's types do not allow them.
- `RemoteAddr` and `RemoteNode` are modelled as strings. `Serializable` variables are modelled by their serialized bytes.
