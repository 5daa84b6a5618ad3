/**
 * The actor runtime's diagnostics event manager: the 64-bit key naming an
 * interface method, the per-actor count of calls waiting for the actor lock
 * with the deltas reported to subscribers, and the stack of method
 * stopwatches that times reentrant calls. The wall clock is a parameter
 * (`now`, in ticks), and a subscribed callback is modelled by appending the
 * event it would receive to `emitted`.
 */
module DiagnosticsEvents {
  import opened Wrappers
  import opened ActorIds

  newtype UInt32 = n: int | 0 <= n < 0x1_0000_0000

  const TwoTo32: int := 0x1_0000_0000
  const TwoTo63: int := 0x8000_0000_0000_0000
  const TwoTo64: int := 0x1_0000_0000_0000_0000

  predicate IsLong(n: int) { -TwoTo63 <= n < TwoTo63 }

  /** The unsigned 64-bit pattern of a `long`. */
  function AsUnsigned(key: int): (u: int)
    requires IsLong(key)
    ensures 0 <= u < TwoTo64
  {
    if key >= 0 then key else key + TwoTo64
  }

  /** `GetInterfaceMethodKey`: the interface id in the upper 32 bits and the method id in the
      lower 32 bits, reinterpreted as a signed `long`. The two shifted halves share no bits, so
      their bitwise or is their sum. */
  function GetInterfaceMethodKey(interfaceId: UInt32, methodId: UInt32): (key: int)
    ensures IsLong(key)
    ensures AsUnsigned(key) / TwoTo32 == interfaceId as int
    ensures AsUnsigned(key) % TwoTo32 == methodId as int
  {
    var u := interfaceId as int * TwoTo32 + methodId as int;
    if u < TwoTo63 then u else u - TwoTo64
  }

  /** The upper half of a key. */
  function InterfaceIdOf(key: int): UInt32
    requires IsLong(key)
  {
    (AsUnsigned(key) / TwoTo32) as UInt32
  }

  /** The lower half of a key. */
  function MethodIdOf(key: int): UInt32
    requires IsLong(key)
  {
    (AsUnsigned(key) % TwoTo32) as UInt32
  }

  /** Both ids can be read back from the key. */
  lemma KeyRoundTrip(interfaceId: UInt32, methodId: UInt32)
    ensures InterfaceIdOf(GetInterfaceMethodKey(interfaceId, methodId)) == interfaceId
    ensures MethodIdOf(GetInterfaceMethodKey(interfaceId, methodId)) == methodId
  {
  }

  /** Distinct (interface, method) pairs get distinct keys. */
  lemma {:induction false} KeyInjective(i1: UInt32, m1: UInt32, i2: UInt32, m2: UInt32)
    requires GetInterfaceMethodKey(i1, m1) == GetInterfaceMethodKey(i2, m2)
    ensures i1 == i2 && m1 == m2
  {
    KeyRoundTrip(i1, m1);
    KeyRoundTrip(i2, m2);
  }

  /** Every `long` is the key of exactly the pair its halves name. */
  lemma KeySurjective(key: int)
    requires IsLong(key)
    ensures GetInterfaceMethodKey(InterfaceIdOf(key), MethodIdOf(key)) == key
  {
    var u := AsUnsigned(key);
    assert u == (u / TwoTo32) * TwoTo32 + u % TwoTo32;
  }

  datatype RemotingListener = V1Listener | V2Listener

  /** A stopwatch, identified by the clock reading at which it was last restarted. */
  datatype Stopwatch = Stopwatch(startedAt: int)

  datatype EventKind = PendingActorMethodCallsUpdated | ActorLockAcquired | ActorMethodStarted | ActorMethodFinished

  /** The event data a subscribed callback receives. */
  datatype DiagnosticEvent =
    | PendingCalls(actorId: ActorId, pendingActorMethodCalls: int, pendingActorMethodCallsDelta: int)
    | LockAcquired(lockAcquireTime: int)
    | MethodStart(actorId: ActorId, interfaceMethodKey: int, remotingListener: RemotingListener)
    | MethodFinish(actorId: ActorId, interfaceMethodKey: int, methodExecutionTime: int,
                   exception: Option<string>, remotingListener: RemotingListener)

  /** Finishing a method call with no stopwatch on the stack: the stack's pop throws. */
  datatype EmptyStopwatchStack = EmptyStopwatchStack

  /** The sum of the pending-call deltas reported for `actorId`: the count a subscriber that adds up
      the deltas from zero arrives at. */
  function SubscriberView(events: seq<DiagnosticEvent>, actorId: ActorId): (r: int)
    ensures (forall i :: 0 <= i < |events| ==> !(events[i].PendingCalls? && events[i].actorId == actorId)) ==> r == 0
  {
    if events == [] then 0
    else
      var last := events[|events| - 1];
      SubscriberView(events[..|events| - 1], actorId)
        + (if last.PendingCalls? && last.actorId == actorId then last.pendingActorMethodCallsDelta else 0)
  }

  lemma SubscriberViewAppend(events: seq<DiagnosticEvent>, e: DiagnosticEvent, actorId: ActorId)
    ensures SubscriberView(events + [e], actorId)
         == SubscriberView(events, actorId)
            + (if e.PendingCalls? && e.actorId == actorId then e.pendingActorMethodCallsDelta else 0)
  {
    assert (events + [e])[..|events + [e]| - 1] == events;
  }

  /** Appending at most one pending-call report and any lock-acquired events moves the subscriber's
      sum by the report's delta alone. */
  lemma ReportView(events: seq<DiagnosticEvent>, report: seq<DiagnosticEvent>, acquired: seq<DiagnosticEvent>,
                   actorId: ActorId)
    requires |report| <= 1 && (report != [] ==> report[0].PendingCalls? && report[0].actorId == actorId)
    requires |acquired| <= 1 && (acquired != [] ==> acquired[0].LockAcquired?)
    ensures SubscriberView(events + report + acquired, actorId)
         == SubscriberView(events, actorId) + (if report == [] then 0 else report[0].pendingActorMethodCallsDelta)
  {
    if report != [] {
      SubscriberViewAppend(events, report[0], actorId);
      assert events + report == events + [report[0]];
    } else {
      assert events + report == events;
    }
    if acquired != [] {
      SubscriberViewAppend(events + report, acquired[0], actorId);
      assert events + report + acquired == (events + report) + [acquired[0]];
    } else {
      assert events + report + acquired == events + report;
    }
  }

  /** The diagnostics context an actor carries. */
  class DiagnosticsManagerActorContext {
    const actorId: ActorId
    var pendingActorMethodCalls: int
    var lastReportedPendingActorMethodCalls: int
    var methodStopwatches: seq<Stopwatch>

    constructor (id: ActorId)
      ensures actorId == id && pendingActorMethodCalls == 0 && lastReportedPendingActorMethodCalls == 0
      ensures methodStopwatches == []
    {
      actorId := id;
      pendingActorMethodCalls := 0;
      lastReportedPendingActorMethodCalls := 0;
      methodStopwatches := [];
    }
  }

  class DiagnosticsEventManager {
    /** The event kinds that have a callback attached. */
    var subscribed: set<EventKind>
    /** What the attached callbacks have received, oldest first. */
    var emitted: seq<DiagnosticEvent>

    constructor (callbacks: set<EventKind>)
      ensures subscribed == callbacks && emitted == []
    {
      subscribed := callbacks;
      emitted := [];
    }

    /** One more call waits for the actor lock; the start time returned is the clock reading. */
    method AcquireActorLockStart(ctx: DiagnosticsManagerActorContext, now: int) returns (startTime: int)
      modifies ctx`pendingActorMethodCalls
      ensures startTime == now
      ensures ctx.pendingActorMethodCalls == old(ctx.pendingActorMethodCalls) + 1
    {
      startTime := now;
      ctx.pendingActorMethodCalls := ctx.pendingActorMethodCalls + 1;
    }

    /** A call gave up waiting for the lock: the count it added is taken back. */
    method AcquireActorLockFailed(ctx: DiagnosticsManagerActorContext)
      modifies ctx`pendingActorMethodCalls
      ensures ctx.pendingActorMethodCalls == old(ctx.pendingActorMethodCalls) - 1
    {
      ctx.pendingActorMethodCalls := ctx.pendingActorMethodCalls - 1;
    }

    /** A call acquired the lock: the count drops by one, the change since the last report is
        reported with the new count and remembered as reported, and the time spent waiting is
        reported. A subscriber adding up the deltas from the start keeps seeing the true count. */
    method AcquireActorLockFinish(ctx: DiagnosticsManagerActorContext, actorLockAcquireStartTime: int, now: int)
      returns (currentTime: int)
      modifies this`emitted, ctx`pendingActorMethodCalls, ctx`lastReportedPendingActorMethodCalls
      ensures currentTime == now
      ensures ctx.pendingActorMethodCalls == old(ctx.pendingActorMethodCalls) - 1
      ensures ctx.lastReportedPendingActorMethodCalls == ctx.pendingActorMethodCalls
      ensures emitted == old(emitted)
        + (if PendingActorMethodCallsUpdated in subscribed
           then [PendingCalls(ctx.actorId, ctx.pendingActorMethodCalls,
                              ctx.pendingActorMethodCalls - old(ctx.lastReportedPendingActorMethodCalls))]
           else [])
        + (if ActorLockAcquired in subscribed then [LockAcquired(now - actorLockAcquireStartTime)] else [])
      ensures PendingActorMethodCallsUpdated in subscribed
              && old(SubscriberView(emitted, ctx.actorId)) == old(ctx.lastReportedPendingActorMethodCalls)
              ==> SubscriberView(emitted, ctx.actorId) == ctx.lastReportedPendingActorMethodCalls
    {
      currentTime := now;
      ctx.pendingActorMethodCalls := ctx.pendingActorMethodCalls - 1;
      var pending := ctx.pendingActorMethodCalls;
      var delta := pending - ctx.lastReportedPendingActorMethodCalls;
      ctx.lastReportedPendingActorMethodCalls := pending;
      var report := if PendingActorMethodCallsUpdated in subscribed then [PendingCalls(ctx.actorId, pending, delta)] else [];
      var acquired := if ActorLockAcquired in subscribed then [LockAcquired(now - actorLockAcquireStartTime)] else [];
      ReportView(emitted, report, acquired, ctx.actorId);
      emitted := emitted + report + acquired;
    }

    /** A method call starts: its stopwatch is restarted and pushed, so that reentrant calls are
        timed by their own stopwatches. */
    method ActorMethodStart(interfaceMethodKey: int, ctx: DiagnosticsManagerActorContext,
                            remotingListener: RemotingListener, now: int)
      modifies this`emitted, ctx`methodStopwatches
      ensures ctx.methodStopwatches == old(ctx.methodStopwatches) + [Stopwatch(now)]
      ensures emitted == old(emitted)
        + (if ActorMethodStarted in subscribed
           then [MethodStart(ctx.actorId, interfaceMethodKey, remotingListener)] else [])
    {
      var methodStopwatch := Stopwatch(now);
      if ActorMethodStarted in subscribed {
        emitted := emitted + [MethodStart(ctx.actorId, interfaceMethodKey, remotingListener)];
      }
      ctx.methodStopwatches := ctx.methodStopwatches + [methodStopwatch];
    }

    /** A method call finishes: the most recently pushed stopwatch is popped and its elapsed time is
        reported. With no stopwatch on the stack the pop fails and nothing changes. */
    method ActorMethodFinish(interfaceMethodKey: int, ctx: DiagnosticsManagerActorContext,
                             e: Option<string>, remotingListener: RemotingListener, now: int)
      returns (r: Result<int, EmptyStopwatchStack>)
      modifies this`emitted, ctx`methodStopwatches
      ensures r.Failure? <==> old(ctx.methodStopwatches) == []
      ensures r.Failure? ==> ctx.methodStopwatches == [] && emitted == old(emitted)
      ensures r.Success? ==>
        var top := old(ctx.methodStopwatches)[|old(ctx.methodStopwatches)| - 1];
        && r.value == now - top.startedAt
        && ctx.methodStopwatches == old(ctx.methodStopwatches)[..|old(ctx.methodStopwatches)| - 1]
        && emitted == old(emitted)
             + (if ActorMethodFinished in subscribed
                then [MethodFinish(ctx.actorId, interfaceMethodKey, r.value, e, remotingListener)] else [])
    {
      if ctx.methodStopwatches == [] {
        return Failure(EmptyStopwatchStack);
      }
      var n := |ctx.methodStopwatches|;
      var mtdStopwatch := ctx.methodStopwatches[n - 1];
      ctx.methodStopwatches := ctx.methodStopwatches[..n - 1];
      var elapsed := now - mtdStopwatch.startedAt;
      if ActorMethodFinished in subscribed {
        emitted := emitted + [MethodFinish(ctx.actorId, interfaceMethodKey, elapsed, e, remotingListener)];
      }
      r := Success(elapsed);
    }
  }

  /** A reentrant call: an outer call starts at 10 and an inner one at 25; the inner one finishing
      at 40 is timed from 25 and the outer one finishing at 70 from 10, and the stack ends empty. */
  method ReentrantTiming() returns (inner: Result<int, EmptyStopwatchStack>, outer: Result<int, EmptyStopwatchStack>,
                                    stackAfter: seq<Stopwatch>)
    ensures inner == Success(15) && outer == Success(60) && stackAfter == []
  {
    var m := new DiagnosticsEventManager({});
    var ctx := new DiagnosticsManagerActorContext(ActorId("a"));
    var key := GetInterfaceMethodKey(1, 2);
    m.ActorMethodStart(key, ctx, V2Listener, 10);
    m.ActorMethodStart(key, ctx, V2Listener, 25);
    inner := m.ActorMethodFinish(key, ctx, None, V2Listener, 40);
    outer := m.ActorMethodFinish(key, ctx, None, V2Listener, 70);
    stackAfter := ctx.methodStopwatches;
  }

  /** Two calls wait for the lock, one gives up and one acquires it: the count returns to zero, and
      the report says zero pending with a delta of zero; the subscriber's sum agrees. */
  method LockBookkeeping() returns (pending: int, reported: seq<DiagnosticEvent>)
    ensures pending == 0
    ensures reported == [PendingCalls(ActorId("a"), 0, 0)]
  {
    var m := new DiagnosticsEventManager({PendingActorMethodCallsUpdated});
    var ctx := new DiagnosticsManagerActorContext(ActorId("a"));
    var s1 := m.AcquireActorLockStart(ctx, 1);
    var s2 := m.AcquireActorLockStart(ctx, 2);
    m.AcquireActorLockFailed(ctx);
    var _ := m.AcquireActorLockFinish(ctx, s1, 5);
    pending := ctx.pendingActorMethodCalls;
    reported := m.emitted;
  }
}
