/** The aggregate resource manager (bytetcc-core .../bytetcc/TransactionCoordinator.java).
    Every supported XA operation is routed, by the format id of its identifier, to
    exactly one of two participants: the ordinary (JTA) one or the compensable (TCC)
    one. The participants are foreign: what one of them would answer is a parameter,
    and what each of them receives is recorded in an `Effect`. */
module Coordinator {
  import opened Outcomes
  import opened Xids

  /** XA error codes (section 5 of the X/Open XA specification, as `XAException` has them). */
  const XAER_RMERR: int := -3
  const XAER_INVAL: int := -5

  datatype XaError = XAException(errorCode: int)

  datatype Family = Ordinary | Compensable

  /** A call delivered to one participant. */
  datatype Call =
    | PrepareCall(xid: Xid)
    | CommitCall(xid: Xid, onePhase: bool)
    | RollbackCall(xid: Xid)
    | RecoverCall(flags: int)
    | ForgetCall(xid: Xid)
    | ForgetQuietlyCall(xid: Xid)

  /** What one coordinator operation did: the calls each participant received, in
      order, and what the operation returned or raised. */
  datatype Effect<+T> = Effect(toOrdinary: seq<Call>, toCompensable: seq<Call>, result: Result<T, XaError>)

  /** The participant family named by a format id; `None` for an id of neither kind. */
  function FamilyOf(formatId: int): (r: Option<Family>)
    ensures r == Some(Ordinary) <==> formatId == JTA_FORMAT_ID
    ensures r == Some(Compensable) <==> formatId == TCC_FORMAT_ID
  {
    if formatId == JTA_FORMAT_ID then Some(Ordinary)
    else if formatId == TCC_FORMAT_ID then Some(Compensable)
    else None
  }

  /** The switch shared by prepare, commit, rollback and forget: deliver `call` to the
      participant the format id names and pass its answer through, or raise
      XAER_INVAL without touching either participant. */
  function Dispatch<T>(xid: Xid, call: Call, ordinaryReply: Result<T, XaError>,
                       compensableReply: Result<T, XaError>): (r: Effect<T>)
    ensures |r.toOrdinary| + |r.toCompensable| <= 1
    ensures r.toOrdinary != [] <==> xid.formatId == JTA_FORMAT_ID
    ensures r.toCompensable != [] <==> xid.formatId == TCC_FORMAT_ID
    ensures r.toOrdinary != [] ==> r.toOrdinary == [call] && r.result == ordinaryReply
    ensures r.toCompensable != [] ==> r.toCompensable == [call] && r.result == compensableReply
    ensures r.toOrdinary == [] && r.toCompensable == [] ==> r.result == Failure(XAException(XAER_INVAL))
  {
    match FamilyOf(xid.formatId)
    case Some(Ordinary) => Effect([call], [], ordinaryReply)
    case Some(Compensable) => Effect([], [call], compensableReply)
    case None => Effect([], [], Failure(XAException(XAER_INVAL)))
  }

  /** `prepare`: the vote of exactly the participant the format id names. */
  function Prepare(xid: Xid, ordinaryVote: Result<int, XaError>, compensableVote: Result<int, XaError>): (r: Effect<int>)
    ensures xid.formatId == JTA_FORMAT_ID ==>
      r.toOrdinary == [PrepareCall(xid)] && r.toCompensable == [] && r.result == ordinaryVote
    ensures xid.formatId == TCC_FORMAT_ID ==>
      r.toOrdinary == [] && r.toCompensable == [PrepareCall(xid)] && r.result == compensableVote
    ensures xid.formatId != JTA_FORMAT_ID && xid.formatId != TCC_FORMAT_ID ==>
      r.toOrdinary == [] && r.toCompensable == [] && r.result == Failure(XAException(XAER_INVAL))
  {
    Dispatch(xid, PrepareCall(xid), ordinaryVote, compensableVote)
  }

  /** `commit`: `onePhase` reaches the selected participant unchanged. */
  function Commit(xid: Xid, onePhase: bool, ordinaryReply: Result<(), XaError>,
                  compensableReply: Result<(), XaError>): (r: Effect<()>)
    ensures xid.formatId == JTA_FORMAT_ID ==>
      r.toOrdinary == [CommitCall(xid, onePhase)] && r.toCompensable == [] && r.result == ordinaryReply
    ensures xid.formatId == TCC_FORMAT_ID ==>
      r.toOrdinary == [] && r.toCompensable == [CommitCall(xid, onePhase)] && r.result == compensableReply
    ensures xid.formatId != JTA_FORMAT_ID && xid.formatId != TCC_FORMAT_ID ==>
      r.toOrdinary == [] && r.toCompensable == [] && r.result == Failure(XAException(XAER_INVAL))
  {
    Dispatch(xid, CommitCall(xid, onePhase), ordinaryReply, compensableReply)
  }

  function Rollback(xid: Xid, ordinaryReply: Result<(), XaError>, compensableReply: Result<(), XaError>): (r: Effect<()>)
    ensures xid.formatId == JTA_FORMAT_ID ==>
      r.toOrdinary == [RollbackCall(xid)] && r.toCompensable == [] && r.result == ordinaryReply
    ensures xid.formatId == TCC_FORMAT_ID ==>
      r.toOrdinary == [] && r.toCompensable == [RollbackCall(xid)] && r.result == compensableReply
    ensures xid.formatId != JTA_FORMAT_ID && xid.formatId != TCC_FORMAT_ID ==>
      r.toOrdinary == [] && r.toCompensable == [] && r.result == Failure(XAException(XAER_INVAL))
  {
    Dispatch(xid, RollbackCall(xid), ordinaryReply, compensableReply)
  }

  function Forget(xid: Xid, ordinaryReply: Result<(), XaError>, compensableReply: Result<(), XaError>): (r: Effect<()>)
    ensures xid.formatId == JTA_FORMAT_ID ==>
      r.toOrdinary == [ForgetCall(xid)] && r.toCompensable == [] && r.result == ordinaryReply
    ensures xid.formatId == TCC_FORMAT_ID ==>
      r.toOrdinary == [] && r.toCompensable == [ForgetCall(xid)] && r.result == compensableReply
    ensures xid.formatId != JTA_FORMAT_ID && xid.formatId != TCC_FORMAT_ID ==>
      r.toOrdinary == [] && r.toCompensable == [] && r.result == Failure(XAException(XAER_INVAL))
  {
    Dispatch(xid, ForgetCall(xid), ordinaryReply, compensableReply)
  }

  /** `forgetQuietly`: never raises; an unknown format id reaches nobody. */
  function ForgetQuietly(xid: Xid): (r: Effect<()>)
    ensures r.result == Success(())
    ensures r.toOrdinary == (if xid.formatId == JTA_FORMAT_ID then [ForgetQuietlyCall(xid)] else [])
    ensures r.toCompensable == (if xid.formatId == TCC_FORMAT_ID then [ForgetQuietlyCall(xid)] else [])
  {
    match FamilyOf(xid.formatId)
    case Some(Ordinary) => Effect([ForgetQuietlyCall(xid)], [], Success(()))
    case Some(Compensable) => Effect([], [ForgetQuietlyCall(xid)], Success(()))
    case None => Effect([], [], Success(()))
  }

  /** What a participant's `recover` did: returned an array, or threw. */
  datatype RecoverReply = Recovered(xids: seq<Xid>) | RecoverThrew

  /** A participant that throws during recovery contributes nothing. */
  function Contribution(reply: RecoverReply): seq<Xid>
  {
    match reply
    case Recovered(xids) => xids
    case RecoverThrew => []
  }

  /** `recover`: asks both participants, then copies the ordinary results followed by
      the compensable ones into a fresh array. It never raises. */
  method Recover(flags: int, ordinaryReply: RecoverReply, compensableReply: RecoverReply) returns (r: Effect<seq<Xid>>)
    ensures r.toOrdinary == [RecoverCall(flags)] && r.toCompensable == [RecoverCall(flags)]
    ensures r.result.Success?
    ensures ordinaryReply.RecoverThrew? && compensableReply.RecoverThrew? ==> r.result.value == []
    ensures |r.result.value| == |Contribution(ordinaryReply)| + |Contribution(compensableReply)|
    ensures r.result.value[..|Contribution(ordinaryReply)|] == Contribution(ordinaryReply)
    ensures r.result.value[|Contribution(ordinaryReply)|..] == Contribution(compensableReply)
  {
    var jtaXidArray := Contribution(ordinaryReply);
    var tccXidArray := Contribution(compensableReply);
    var resultArray := new Xid[|jtaXidArray| + |tccXidArray|];
    var i := 0;
    while i < |jtaXidArray|
      invariant 0 <= i <= |jtaXidArray|
      invariant forall k :: 0 <= k < i ==> resultArray[k] == jtaXidArray[k]
    {
      resultArray[i] := jtaXidArray[i];
      i := i + 1;
    }
    var j := 0;
    while j < |tccXidArray|
      invariant 0 <= j <= |tccXidArray|
      invariant forall k :: 0 <= k < |jtaXidArray| ==> resultArray[k] == jtaXidArray[k]
      invariant forall k :: 0 <= k < j ==> resultArray[|jtaXidArray| + k] == tccXidArray[k]
    {
      resultArray[|jtaXidArray| + j] := tccXidArray[j];
      j := j + 1;
    }
    assert resultArray[..][..|jtaXidArray|] == jtaXidArray;
    assert resultArray[..][|jtaXidArray|..] == tccXidArray;
    r := Effect([RecoverCall(flags)], [RecoverCall(flags)], Success(resultArray[..]));
  }

  /** The operations this aggregate endpoint refuses. */
  datatype UnsupportedOperation =
    | StartXid(xid: Xid, flags: int)
    | EndXid(xid: Xid, flags: int)
    | StartContext(flags: int)
    | EndContext(flags: int)
    | IsSameRM
    | SetTransactionTimeout(seconds: int)
    | GetTransactionTimeout

  /** Every unsupported operation raises XAER_RMERR and reaches no participant. */
  function Unsupported(op: UnsupportedOperation): (r: Effect<()>)
    ensures r.toOrdinary == [] && r.toCompensable == []
    ensures r.result == Failure(XAException(XAER_RMERR))
  {
    Effect([], [], Failure(XAException(XAER_RMERR)))
  }

  /** The identity a participant reports about its node. */
  datatype NodeIdentity = NodeIdentity(remoteAddr: string, remoteNode: string, application: string, identifier: string)

  /* The identity accessors take no identifier: whatever traffic is being handled, they
     answer with the compensable participant's identity. */

  function GetRemoteAddr(ordinary: NodeIdentity, compensable: NodeIdentity): (r: string)
    ensures r == compensable.remoteAddr
  {
    compensable.remoteAddr
  }

  function GetRemoteNode(ordinary: NodeIdentity, compensable: NodeIdentity): (r: string)
    ensures r == compensable.remoteNode
  {
    compensable.remoteNode
  }

  function GetApplication(ordinary: NodeIdentity, compensable: NodeIdentity): (r: string)
    ensures r == compensable.application
  {
    compensable.application
  }

  function GetIdentifier(ordinary: NodeIdentity, compensable: NodeIdentity): (r: string)
    ensures r == compensable.identifier
  {
    compensable.identifier
  }

  /** Dispatch depends on the format id alone: two identifiers with the same format id
      reach the same participant with every supported operation, and an identifier
      that reaches a participant with one operation reaches it with all of them. */
  lemma RoutingDependsOnFormatIdOnly(x: Xid, y: Xid, onePhase: bool, vote: Result<int, XaError>, reply: Result<(), XaError>)
    requires x.formatId == y.formatId
    ensures (Prepare(x, vote, vote).toOrdinary == []) == (Commit(y, onePhase, reply, reply).toOrdinary == [])
    ensures (Prepare(x, vote, vote).toCompensable == []) == (Commit(y, onePhase, reply, reply).toCompensable == [])
    ensures (Commit(x, onePhase, reply, reply).toOrdinary == []) == (Rollback(y, reply, reply).toOrdinary == [])
    ensures (Commit(x, onePhase, reply, reply).toCompensable == []) == (Rollback(y, reply, reply).toCompensable == [])
    ensures (Rollback(x, reply, reply).toOrdinary == []) == (Forget(y, reply, reply).toOrdinary == [])
    ensures (Rollback(x, reply, reply).toCompensable == []) == (Forget(y, reply, reply).toCompensable == [])
    ensures (Forget(x, reply, reply).toOrdinary == []) == (ForgetQuietly(y).toOrdinary == [])
    ensures (Forget(x, reply, reply).toCompensable == []) == (ForgetQuietly(y).toCompensable == [])
  {
  }
}
