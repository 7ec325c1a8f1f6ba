/** The per-thread stack of active compensable invocations
    (bytetcc-core .../compensable/CompensableInvocationRegistry.java).
    The current thread is an explicit parameter; a `java.util.Stack` is a sequence
    whose last element is the top. */
module InvocationRegistry {
  import opened Outcomes

  type Thread = nat

  /** The stack of `t`; a thread without an entry has the empty stack. */
  function StackOf<I>(m: map<Thread, seq<I>>, t: Thread): seq<I>
  {
    if t in m then m[t] else []
  }

  /** The registry's invariant: no entry holds an empty stack. */
  predicate NoEmptyStacks<I>(m: map<Thread, seq<I>>)
  {
    forall t :: t in m ==> m[t] != []
  }

  /** `register`: push onto the stack of `t`, creating it when absent. */
  function Pushed<I>(m: map<Thread, seq<I>>, t: Thread, x: I): (r: map<Thread, seq<I>>)
    ensures r.Keys == m.Keys + {t}
    ensures r[t] == StackOf(m, t) + [x]
    ensures forall u :: u in m && u != t ==> r[u] == m[u]
    ensures NoEmptyStacks(m) ==> NoEmptyStacks(r)
  {
    m[t := StackOf(m, t) + [x]]
  }

  /** `getCurrent`: the top of the stack of `t` without removing it; `None` when there
      is no stack or an empty one. */
  function Top<I>(m: map<Thread, seq<I>>, t: Thread): (r: Option<I>)
    ensures r.None? <==> StackOf(m, t) == []
    ensures r.Some? ==> r.value == StackOf(m, t)[|StackOf(m, t)| - 1]
  {
    var stack := StackOf(m, t);
    if stack == [] then None else Some(stack[|stack| - 1])
  }

  /** The map `unRegister` leaves: the top of `t`'s stack is popped, and an entry
      emptied by the pop is removed; with nothing registered nothing changes. */
  function Popped<I>(m: map<Thread, seq<I>>, t: Thread): (r: map<Thread, seq<I>>)
    ensures StackOf(m, t) == [] ==> r == m
    ensures StackOf(m, t) != [] ==> StackOf(r, t) == StackOf(m, t)[..|StackOf(m, t)| - 1]
    ensures t !in r <==> t !in m || |m[t]| == 1
    ensures forall u :: u != t ==> (u in r <==> u in m)
    ensures forall u :: u in m && u != t ==> r[u] == m[u]
    ensures NoEmptyStacks(m) ==> NoEmptyStacks(r)
  {
    if t !in m || m[t] == [] then m
    else if |m[t]| == 1 then m - {t}
    else m[t := m[t][..|m[t]| - 1]]
  }

  class CompensableInvocationRegistry<I> {
    var invocationMap: map<Thread, seq<I>>

    ghost predicate Valid()
      reads this
    {
      NoEmptyStacks(invocationMap)
    }

    constructor ()
      ensures Valid() && invocationMap == map[]
    {
      invocationMap := map[];
    }

    method Register(current: Thread, invocation: I)
      requires Valid()
      modifies this
      ensures Valid()
      ensures invocationMap == Pushed(old(invocationMap), current, invocation)
    {
      var stack: seq<I>;
      if current !in invocationMap {
        stack := [];
        invocationMap := invocationMap[current := stack];
      } else {
        stack := invocationMap[current];
      }
      invocationMap := invocationMap[current := stack + [invocation]];
    }

    method GetCurrent(current: Thread) returns (r: Option<I>)
      ensures r == Top(invocationMap, current)
    {
      if current !in invocationMap || invocationMap[current] == [] {
        return None;
      }
      var stack := invocationMap[current];
      r := Some(stack[|stack| - 1]);
    }

    method UnRegister(current: Thread) returns (r: Option<I>)
      requires Valid()
      modifies this
      ensures Valid()
      ensures r == Top(old(invocationMap), current)
      ensures invocationMap == Popped(old(invocationMap), current)
    {
      if current !in invocationMap || invocationMap[current] == [] {
        return None;
      }
      var stack := invocationMap[current];
      var invocation := stack[|stack| - 1];
      stack := stack[..|stack| - 1];
      invocationMap := invocationMap[current := stack];
      if stack == [] {
        invocationMap := invocationMap - {current};
      }
      r := Some(invocation);
    }
  }

  /** A register followed by an unregister on the same thread returns the invocation
      just registered and restores the map exactly. */
  lemma PushThenPop<I>(m: map<Thread, seq<I>>, t: Thread, x: I)
    requires NoEmptyStacks(m)
    ensures Top(Pushed(m, t, x), t) == Some(x)
    ensures Popped(Pushed(m, t, x), t) == m
  {
  }

  /** Registering `xs` in order on thread `t` (nested calls). */
  function PushAll<I>(m: map<Thread, seq<I>>, t: Thread, xs: seq<I>): (r: map<Thread, seq<I>>)
    ensures StackOf(r, t) == StackOf(m, t) + xs
    ensures NoEmptyStacks(m) ==> NoEmptyStacks(r)
    decreases |xs|
  {
    if xs == [] then m else Pushed(PushAll(m, t, xs[..|xs| - 1]), t, xs[|xs| - 1])
  }

  function Reversed<I>(xs: seq<I>): seq<I>
    decreases |xs|
  {
    if xs == [] then [] else [xs[|xs| - 1]] + Reversed(xs[..|xs| - 1])
  }

  /** Unregistering `n` times on thread `t`: the invocations returned, in order, and
      the map left behind. Stops early when nothing is registered. */
  function UnwindN<I>(m: map<Thread, seq<I>>, t: Thread, n: nat): (map<Thread, seq<I>>, seq<I>)
    decreases n
  {
    if n == 0 then (m, [])
    else
      match Top(m, t)
      case None => (m, [])
      case Some(x) =>
        var (rest, popped) := UnwindN(Popped(m, t), t, n - 1);
        (rest, [x] + popped)
  }

  /** Nested register/unregister pairs unwind in LIFO order: after registering `xs`,
      as many unregisters return `xs` last-first and leave the map as it was; a thread
      that had no entry has none afterwards, so `getCurrent` answers `None`. */
  lemma {:induction false} NestedPairsUnwindLifo<I>(m: map<Thread, seq<I>>, t: Thread, xs: seq<I>)
    requires NoEmptyStacks(m)
    ensures UnwindN(PushAll(m, t, xs), t, |xs|) == (m, Reversed(xs))
    ensures t !in m ==> Top(UnwindN(PushAll(m, t, xs), t, |xs|).0, t) == None
    decreases |xs|
  {
    if xs != [] {
      var init, last := xs[..|xs| - 1], xs[|xs| - 1];
      var inner := PushAll(m, t, init);
      PushThenPop(inner, t, last);
      NestedPairsUnwindLifo(m, t, init);
    }
  }

  /** A client of the class: a register/unregister pair on one thread returns the
      registered invocation and leaves every thread's entry as it was. */
  method RegisterThenUnRegister<I>(registry: CompensableInvocationRegistry<I>, current: Thread, invocation: I)
    returns (r: Option<I>)
    requires registry.Valid()
    modifies registry
    ensures registry.Valid()
    ensures r == Some(invocation)
    ensures registry.invocationMap == old(registry.invocationMap)
  {
    ghost var before := registry.invocationMap;
    registry.Register(current, invocation);
    var top := registry.GetCurrent(current);
    assert top == Some(invocation);
    r := registry.UnRegister(current);
    PushThenPop(before, current, invocation);
  }
}
