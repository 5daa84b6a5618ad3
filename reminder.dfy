/**
 * A registered actor reminder: its arguments are validated before anything
 * is stored, and it owns a timer handle that cancellation and disposal drop.
 */
module ActorReminders {
  import opened Wrappers
  import opened TimeSpans
  import opened ActorIds

  /** The smallest period a reminder accepts: `Timeout.InfiniteTimeSpan`, minus one millisecond. */
  const MinTimePeriod: TimeSpan := InfiniteTimeSpan

  /** The largest due time, in whole milliseconds, a framework timer accepts. */
  const MaxSupportedTimeoutMilliseconds: int := 0xFFFF_FFFE

  /** The `ArgumentOutOfRangeException` a rejected argument raises, with the argument's name. */
  datatype ArgumentOutOfRange = ArgumentOutOfRange(paramName: string)

  /** The due time and period a timer was last armed with. */
  datatype TimerHandle = TimerHandle(dueTime: TimeSpan, period: TimeSpan)

  /** A fresh timer is created disarmed: infinite due time and period. */
  const DisarmedTimer: TimerHandle := TimerHandle(InfiniteTimeSpan, InfiniteTimeSpan)

  /** The reminder arguments the copying constructor takes from another reminder. */
  datatype ReminderInfo = ReminderInfo(name: string, state: seq<bv8>, dueTime: TimeSpan, period: TimeSpan)

  /** A negative due time is rejected. */
  function ValidateDueTime(argName: string, value: TimeSpan): (r: Option<ArgumentOutOfRange>)
    ensures r.Some? <==> value < Zero
    ensures r.Some? ==> r.value.paramName == argName
  {
    if value < Zero then Some(ArgumentOutOfRange(argName)) else None
  }

  /** A period below minus one millisecond is rejected; minus one millisecond itself means "never
      repeat" and is accepted. */
  function ValidatePeriod(argName: string, value: TimeSpan): (r: Option<ArgumentOutOfRange>)
    ensures r.Some? <==> value as int < -TicksPerMillisecond
    ensures r.Some? ==> r.value.paramName == argName
  {
    if value < MinTimePeriod then Some(ArgumentOutOfRange(argName)) else None
  }

  /** The constructor's checks in order: the due time first, then the period. */
  function ValidateArguments(dueTime: TimeSpan, period: TimeSpan): (r: Option<ArgumentOutOfRange>)
    ensures r.None? <==> dueTime >= Zero && period >= MinTimePeriod
    ensures dueTime < Zero ==> r == Some(ArgumentOutOfRange("DueTime"))
    ensures dueTime >= Zero && period < MinTimePeriod ==> r == Some(ArgumentOutOfRange("Period"))
  {
    match ValidateDueTime("DueTime", dueTime)
    case Some(e) => Some(e)
    case None => ValidatePeriod("Period", period)
  }

  /** Whether the framework timer accepts a change to `dueTime`: its whole milliseconds must lie
      between minus one and the largest supported timeout. */
  function TimerAccepts(dueTime: TimeSpan): (r: bool)
    ensures r <==> -2 * TicksPerMillisecond < dueTime as int < (MaxSupportedTimeoutMilliseconds + 1) * TicksPerMillisecond
  {
    -1 <= WholeMilliseconds(dueTime) <= MaxSupportedTimeoutMilliseconds
  }

  /** The edges of the two checks: a zero due time and a period of exactly minus one millisecond
      pass, one tick less fails. */
  lemma PeriodBoundary()
    ensures ValidatePeriod("Period", MinTimePeriod).None?
    ensures ValidatePeriod("Period", MinTimePeriod - 1).Some?
    ensures ValidateDueTime("DueTime", Zero).None?
    ensures ValidateDueTime("DueTime", -1).Some?
  {
  }

  class ActorReminder {
    const ownerActorId: ActorId
    const name: string
    const state: seq<bv8>
    const dueTime: TimeSpan
    const period: TimeSpan
    var timer: Option<TimerHandle>

    /** Stores validated arguments and a disarmed timer; `Create` runs the validation first. */
    constructor (actorId: ActorId, reminderName: string, reminderState: seq<bv8>,
                 reminderDueTime: TimeSpan, reminderPeriod: TimeSpan)
      requires ValidateArguments(reminderDueTime, reminderPeriod).None?
      ensures ownerActorId == actorId && name == reminderName && state == reminderState
      ensures dueTime == reminderDueTime && period == reminderPeriod
      ensures timer == Some(DisarmedTimer)
    {
      ownerActorId := actorId;
      name := reminderName;
      state := reminderState;
      dueTime := reminderDueTime;
      period := reminderPeriod;
      timer := Some(DisarmedTimer);
    }

    /** The validating constructor: a rejected argument raises before any field is set; otherwise
        the reminder holds exactly the arguments and a live timer. */
    static method Create(actorId: ActorId, reminderName: string, reminderState: seq<bv8>,
                         reminderDueTime: TimeSpan, reminderPeriod: TimeSpan)
      returns (r: Result<ActorReminder, ArgumentOutOfRange>)
      ensures r.Failure? <==> ValidateArguments(reminderDueTime, reminderPeriod).Some?
      ensures r.Failure? ==> r.error == ValidateArguments(reminderDueTime, reminderPeriod).value
      ensures r.Success? ==> fresh(r.value) && r.value.IsValid()
      ensures r.Success? ==> r.value.ownerActorId == actorId && r.value.name == reminderName
                             && r.value.state == reminderState
      ensures r.Success? ==> r.value.dueTime == reminderDueTime && r.value.period == reminderPeriod
    {
      match ValidateArguments(reminderDueTime, reminderPeriod)
      case Some(e) =>
        r := Failure(e);
      case None =>
        var reminder := new ActorReminder(actorId, reminderName, reminderState, reminderDueTime, reminderPeriod);
        r := Success(reminder);
    }

    /** The constructor that copies the arguments of another reminder. */
    static method CreateFrom(actorId: ActorId, reminder: ReminderInfo)
      returns (r: Result<ActorReminder, ArgumentOutOfRange>)
      ensures r.Failure? <==> ValidateArguments(reminder.dueTime, reminder.period).Some?
      ensures r.Success? ==> fresh(r.value) && r.value.IsValid()
      ensures r.Success? ==> r.value.ownerActorId == actorId && r.value.name == reminder.name
                             && r.value.state == reminder.state
      ensures r.Success? ==> r.value.dueTime == reminder.dueTime && r.value.period == reminder.period
    {
      r := Create(actorId, reminder.name, reminder.state, reminder.dueTime, reminder.period);
    }

    /** A reminder is valid exactly while it holds a timer handle. */
    function IsValid(): (r: bool)
      reads this
      ensures r <==> timer.Some?
    {
      timer.Some?
    }

    /** Drops the timer handle; once cancelled the reminder is no longer valid, and cancelling again
        changes nothing. */
    method CancelTimer()
      modifies this
      ensures timer == None && !IsValid()
    {
      if timer.Some? {
        timer := None;
      }
    }

    /** Re-arms a live timer to fire once after `newDueTime`. A cancelled reminder ignores the call;
        a due time the framework timer refuses leaves the timer as it was and is reported through
        the error trace, returned here as `traced`. */
    method ArmTimer(newDueTime: TimeSpan) returns (traced: bool)
      modifies this
      ensures old(timer).None? ==> timer == None && !traced
      ensures old(timer).Some? && TimerAccepts(newDueTime) ==>
                timer == Some(TimerHandle(newDueTime, InfiniteTimeSpan)) && !traced
      ensures old(timer).Some? && !TimerAccepts(newDueTime) ==> timer == old(timer) && traced
    {
      var snap := timer;
      traced := false;
      if snap.Some? {
        if TimerAccepts(newDueTime) {
          timer := Some(TimerHandle(newDueTime, InfiniteTimeSpan));
        } else {
          traced := true;
        }
      }
    }

    /** Explicit disposal cancels the timer. */
    method Dispose()
      modifies this
      ensures timer == None && !IsValid()
    {
      DisposeCore(true);
    }

    /** The disposal pattern's core: only an explicit disposal cancels the timer. */
    method DisposeCore(disposing: bool)
      modifies this
      ensures timer == (if disposing then None else old(timer))
    {
      if !disposing {
        return;
      }
      CancelTimer();
    }

    /** The finalizer runs the disposal core without disposing, so it leaves the timer alone. */
    method Finalize()
      modifies this
      ensures timer == old(timer)
    {
      DisposeCore(false);
    }
  }
}
