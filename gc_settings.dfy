/**
 * The settings of the actor garbage collector: how long an unused actor may
 * stay idle and how often the collector scans, both in seconds. The model
 * builds settings only through DefaultSettings, NewSettings and
 * CopySettings, the three constructors; what is proved of their results is
 * that they are Admissible: both values positive and the idle timeout at
 * least one scan interval long.
 */
module ActorGarbageCollection {
  import opened Wrappers

  newtype Int64 = n: int | -0x8000_0000_0000_0000 <= n <= 0x7FFF_FFFF_FFFF_FFFF

  const DefaultScanIntervalInSeconds: Int64 := 60
  const DefaultIdleTimeoutInSeconds: Int64 := 3600

  datatype ActorGarbageCollectionSettings = ActorGarbageCollectionSettings(
    scanIntervalInSeconds: Int64,
    idleTimeoutInSeconds: Int64)

  /** The `ArgumentOutOfRangeException` raised for a rejected setting, with the parameter name it
      carries: the names of the two arguments as the source spells them, and for the ratio check
      the resource key of its message, which the source passes where a parameter name goes. */
  datatype ArgumentOutOfRange = ArgumentOutOfRange(paramName: string)

  const IdleTimeoutError := ArgumentOutOfRange("idleTimeoutInSeconds)")
  const ScanIntervalError := ArgumentOutOfRange("scanIntervalInSeconds)")
  const NotValidError := ArgumentOutOfRange("ActorGCSettingsNotValid")

  /** The settings every actor service starts from. */
  function DefaultSettings(): (s: ActorGarbageCollectionSettings)
    ensures s.scanIntervalInSeconds == 60 && s.idleTimeoutInSeconds == 3600
    ensures Admissible(s)
  {
    ActorGarbageCollectionSettings(DefaultScanIntervalInSeconds, DefaultIdleTimeoutInSeconds)
  }

  /** What a settings value built by any constructor satisfies. */
  predicate Admissible(s: ActorGarbageCollectionSettings)
  {
    0 < s.scanIntervalInSeconds <= s.idleTimeoutInSeconds
  }

  /** The validating constructor. The idle timeout is checked first, then the scan interval, then
      their ratio in 64-bit integer division; on success the settings hold exactly the arguments. */
  function NewSettings(idleTimeoutInSeconds: Int64, scanIntervalInSeconds: Int64)
    : (r: Result<ActorGarbageCollectionSettings, ArgumentOutOfRange>)
    ensures idleTimeoutInSeconds <= 0 ==> r == Failure(IdleTimeoutError)
    ensures idleTimeoutInSeconds > 0 && scanIntervalInSeconds <= 0 ==> r == Failure(ScanIntervalError)
    ensures idleTimeoutInSeconds > 0 && scanIntervalInSeconds > 0 ==>
              (r.Success? <==> idleTimeoutInSeconds >= scanIntervalInSeconds)
    ensures r.Failure? ==> r.error in {IdleTimeoutError, ScanIntervalError, NotValidError}
    ensures r.Success? ==> r.value == ActorGarbageCollectionSettings(scanIntervalInSeconds, idleTimeoutInSeconds)
  {
    if idleTimeoutInSeconds <= 0 then Failure(IdleTimeoutError)
    else if scanIntervalInSeconds <= 0 then Failure(ScanIntervalError)
    else if idleTimeoutInSeconds / scanIntervalInSeconds >= 1 then
      RatioIsAtLeastOne(idleTimeoutInSeconds as int, scanIntervalInSeconds as int);
      Success(ActorGarbageCollectionSettings(scanIntervalInSeconds, idleTimeoutInSeconds))
    else
      RatioIsAtLeastOne(idleTimeoutInSeconds as int, scanIntervalInSeconds as int);
      Failure(NotValidError)
  }

  /** For positive operands, the integer quotient reaches one exactly when the dividend is at
      least the divisor. */
  lemma RatioIsAtLeastOne(idle: int, scan: int)
    requires idle > 0 && scan > 0
    ensures idle / scan >= 1 <==> idle >= scan
  {
    if idle >= scan {
      assert idle == (idle / scan) * scan + idle % scan;
      assert idle % scan < scan;
    } else {
      assert idle / scan == 0 by {
        assert 0 <= idle < scan;
      }
    }
  }

  /** Every accepted value is admissible. */
  lemma AcceptedIsAdmissible(idleTimeoutInSeconds: Int64, scanIntervalInSeconds: Int64)
    requires NewSettings(idleTimeoutInSeconds, scanIntervalInSeconds).Success?
    ensures Admissible(NewSettings(idleTimeoutInSeconds, scanIntervalInSeconds).value)
  {
  }

  /** Every admissible value passes validation and comes back unchanged. */
  lemma AdmissibleIsAccepted(s: ActorGarbageCollectionSettings)
    requires Admissible(s)
    ensures NewSettings(s.idleTimeoutInSeconds, s.scanIntervalInSeconds) == Success(s)
  {
  }

  /** The copying constructor. */
  function CopySettings(settings: ActorGarbageCollectionSettings): (r: ActorGarbageCollectionSettings)
    ensures r.idleTimeoutInSeconds == settings.idleTimeoutInSeconds
    ensures r.scanIntervalInSeconds == settings.scanIntervalInSeconds
    ensures Admissible(settings) ==> Admissible(r)
  {
    ActorGarbageCollectionSettings(settings.scanIntervalInSeconds, settings.idleTimeoutInSeconds)
  }
}
