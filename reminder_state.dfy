/**
 * The state of a persisted reminder as the actor runtime reports it: the
 * reminder's data together with the time remaining until it is next due,
 * computed on the logical clock from either its creation time and due time
 * or, once it has fired and been completed, from the completion time and its
 * period.
 */
module ActorReminderStates {
  import opened Wrappers
  import opened TimeSpans

  /** The persisted reminder data the state is built from. */
  datatype ActorReminderData = ActorReminderData(
    name: string,
    dueTime: TimeSpan,
    period: TimeSpan,
    state: seq<bv8>,
    logicalCreationTime: TimeSpan)

  /** The record of the reminder's last completed firing. */
  datatype ReminderCompletedData = ReminderCompletedData(logicalTime: TimeSpan)

  datatype ActorReminderState = ActorReminderState(reminder: ActorReminderData, nextDueTime: TimeSpan)
  {
    function RemainingDueTime(): TimeSpan { nextDueTime }
    function Name(): string { reminder.name }
    function DueTime(): TimeSpan { reminder.dueTime }
    function Period(): TimeSpan { reminder.period }
    function State(): seq<bv8> { reminder.state }
  }

  function Max(a: int, b: int): int { if a >= b then a else b }

  /** The logical time elapsed since `start`: zero when the clock has not passed it; the
      subtraction overflows only when the clock is more than the largest `TimeSpan` ahead. */
  function ElapsedTime(current: TimeSpan, start: TimeSpan): (r: Result<TimeSpan, Overflow>)
    ensures r.Failure? <==> current as int - start as int > MaxTicks
    ensures r.Success? ==> r.value as int == Max(0, current as int - start as int)
  {
    if current > start then Subtract(current, start) else Success(Zero)
  }

  /** The time left until a reminder is due, following the source's order of evaluation: the
      elapsed time is computed first, then a negative due time or period means the reminder will
      not fire again, and otherwise what is left of it after the elapsed time, never below zero. */
  function ComputeRemainingTime(currentLogicalTime: TimeSpan, createdOrLastCompletedTime: TimeSpan,
                                dueTimeOrPeriod: TimeSpan): (r: Result<TimeSpan, Overflow>)
    ensures r.Failure? <==> currentLogicalTime as int - createdOrLastCompletedTime as int > MaxTicks
    ensures r.Success? && dueTimeOrPeriod < Zero ==> r.value == InfiniteTimeSpan
    ensures r.Success? && dueTimeOrPeriod >= Zero ==> Zero <= r.value <= dueTimeOrPeriod
  {
    match ElapsedTime(currentLogicalTime, createdOrLastCompletedTime)
    case Failure(e) => Failure(e)
    case Success(elapsedTime) =>
      if dueTimeOrPeriod < Zero then Success(InfiniteTimeSpan)
      else if dueTimeOrPeriod > elapsedTime then Success(dueTimeOrPeriod - elapsedTime)
      else Success(Zero)
  }

  /** The remaining time in closed form, as an independent reference: infinite for a negative
      due time, otherwise the due time less the elapsed time, floored at zero. */
  function RemainingSpec(current: int, start: int, due: int): int
  {
    if due < 0 then InfiniteTimeSpan as int else Max(0, due - Max(0, current - start))
  }

  /** Building the state: the remaining time starts from the completion time and the period when a
      completed firing is recorded, and from the creation time and the due time otherwise; the
      reminder's name, due time, period and state pass through unchanged. */
  function NewActorReminderState(reminder: ActorReminderData, currentLogicalTime: TimeSpan,
                                 reminderCompletedData: Option<ReminderCompletedData>)
    : (r: Result<ActorReminderState, Overflow>)
    ensures var start := if reminderCompletedData.Some? then reminderCompletedData.value.logicalTime
                         else reminder.logicalCreationTime;
            var due := if reminderCompletedData.Some? then reminder.period else reminder.dueTime;
            && (r.Failure? <==> currentLogicalTime as int - start as int > MaxTicks)
            && (r.Success? ==> r.value.RemainingDueTime() as int == RemainingSpec(currentLogicalTime as int, start as int, due as int))
    ensures r.Success? ==>
              && r.value.Name() == reminder.name && r.value.DueTime() == reminder.dueTime
              && r.value.Period() == reminder.period && r.value.State() == reminder.state
  {
    var remaining := match reminderCompletedData
      case Some(completed) => ComputeRemainingTime(currentLogicalTime, completed.logicalTime, reminder.period)
      case None => ComputeRemainingTime(currentLogicalTime, reminder.logicalCreationTime, reminder.dueTime);
    var start := if reminderCompletedData.Some? then reminderCompletedData.value.logicalTime
                 else reminder.logicalCreationTime;
    var due := if reminderCompletedData.Some? then reminder.period else reminder.dueTime;
    RemainingMatchesSpec(currentLogicalTime, start, due);
    match remaining
    case Failure(e) => Failure(e)
    case Success(t) => Success(ActorReminderState(reminder, t))
  }

  /** The branching computation agrees with the closed form whenever it does not overflow. */
  lemma RemainingMatchesSpec(current: TimeSpan, start: TimeSpan, due: TimeSpan)
    ensures ComputeRemainingTime(current, start, due).Success? ==>
              ComputeRemainingTime(current, start, due).value as int == RemainingSpec(current as int, start as int, due as int)
  {
  }

  /** Before the clock reaches the start time nothing has elapsed: a non-negative due time or
      period comes back unchanged, and a negative one gives the infinite value. */
  lemma NotYetStarted(current: TimeSpan, start: TimeSpan, due: TimeSpan)
    requires current <= start
    ensures ComputeRemainingTime(current, start, due) == Success(if due < Zero then InfiniteTimeSpan else due)
  {
  }

  /** Elapsed and remaining time add up to the due time until it has run out. */
  lemma ElapsedPlusRemaining(current: TimeSpan, start: TimeSpan, due: TimeSpan)
    requires due >= Zero && ElapsedTime(current, start).Success?
    requires ElapsedTime(current, start).value <= due
    ensures ComputeRemainingTime(current, start, due).Success?
    ensures ComputeRemainingTime(current, start, due).value as int + ElapsedTime(current, start).value as int == due as int
  {
  }

  /** As the logical clock advances, the remaining time never grows. */
  lemma RemainingNeverGrows(earlier: TimeSpan, later: TimeSpan, start: TimeSpan, due: TimeSpan)
    requires earlier <= later
    requires ComputeRemainingTime(later, start, due).Success?
    ensures ComputeRemainingTime(earlier, start, due).Success?
    ensures ComputeRemainingTime(later, start, due).value <= ComputeRemainingTime(earlier, start, due).value
  {
  }
}
