/**
 * The remoting-version predicates. Client and listener versions are flag
 * enumerations, and each predicate asks whether a value has a given flag:
 * `HasFlag` holds when every bit of the flag is set in the value. The flags'
 * numeric values are given as data, one table per enumeration.
 */
module RemotingVersions {
  /** Bit `i` of `n`. */
  predicate Bit(n: nat, i: nat)
  {
    if i == 0 then n % 2 == 1 else Bit(n / 2, i - 1)
  }

  function Pow2(i: nat): (p: nat)
    ensures p >= 1
  {
    if i == 0 then 1 else 2 * Pow2(i - 1)
  }

  /** Bitwise and of two non-negative values. */
  function BitAnd(a: nat, b: nat): nat
  {
    if a == 0 || b == 0 then 0
    else 2 * BitAnd(a / 2, b / 2) + (if a % 2 == 1 && b % 2 == 1 then 1 else 0)
  }

  /** `Enum.HasFlag`: the value contains every bit of the flag. */
  predicate HasFlag(value: nat, flag: nat)
  {
    BitAnd(value, flag) == flag
  }

  lemma {:induction false} ZeroHasNoBits(i: nat)
    ensures !Bit(0, i)
  {
    if i > 0 {
      ZeroHasNoBits(i - 1);
    }
  }

  lemma {:induction false} NonzeroHasBit(n: nat) returns (i: nat)
    requires n > 0
    ensures Bit(n, i)
  {
    if n % 2 == 1 {
      i := 0;
    } else {
      var j := NonzeroHasBit(n / 2);
      i := j + 1;
    }
  }

  /** Every bit of `flag` is set in `value`. */
  ghost predicate Contains(value: nat, flag: nat)
  {
    forall i: nat :: Bit(flag, i) ==> Bit(value, i)
  }

  /** `HasFlag` means exactly that every bit set in the flag is set in the value. */
  lemma {:induction false} HasFlagIffBits(value: nat, flag: nat)
    ensures HasFlag(value, flag) <==> Contains(value, flag)
    decreases flag
  {
    if flag == 0 {
      forall i: nat ensures !Bit(flag, i) { ZeroHasNoBits(i); }
      assert Contains(value, flag);
    } else if value == 0 {
      var i := NonzeroHasBit(flag);
      ZeroHasNoBits(i);
    } else {
      HasFlagIffBits(value / 2, flag / 2);
      var low := flag % 2 == 1 ==> value % 2 == 1;
      assert HasFlag(value, flag) <==> HasFlag(value / 2, flag / 2) && low;
      if Contains(value, flag) {
        assert Bit(flag, 0) ==> Bit(value, 0);
        forall i: nat | Bit(flag / 2, i) ensures Bit(value / 2, i) {
          assert Bit(flag, i + 1);
        }
        assert Contains(value / 2, flag / 2);
      } else {
        var i: nat :| Bit(flag, i) && !Bit(value, i);
        if i > 0 {
          assert Bit(flag / 2, i - 1) && !Bit(value / 2, i - 1);
        }
      }
    }
  }

  /** A single-bit flag is present exactly when that bit of the value is set. */
  lemma {:induction false} SingleBitFlag(value: nat, i: nat)
    ensures HasFlag(value, Pow2(i)) <==> Bit(value, i)
  {
    HasFlagIffBits(value, Pow2(i));
    forall j: nat ensures Bit(Pow2(i), j) <==> i == j { PowBits(i, j); }
  }

  lemma {:induction false} PowBits(i: nat, j: nat)
    ensures Bit(Pow2(i), j) <==> i == j
  {
    if i == 0 {
      if j > 0 { ZeroHasNoBits(j - 1); }
    } else if j > 0 {
      PowBits(i - 1, j - 1);
    }
  }

  /** The numeric values of one version enumeration's flags. */
  datatype VersionFlags = VersionFlags(v1: nat, v2: nat, v2InterfaceCompatible: nat)

  function IsRemotingV1(flags: VersionFlags, version: nat): (r: bool)
    ensures r <==> Contains(version, flags.v1)
  {
    HasFlagIffBits(version, flags.v1);
    HasFlag(version, flags.v1)
  }

  function IsRemotingV2(flags: VersionFlags, version: nat): (r: bool)
    ensures r <==> Contains(version, flags.v2)
  {
    HasFlagIffBits(version, flags.v2);
    HasFlag(version, flags.v2)
  }

  function IsRemotingV2InterfaceCompatibleVersion(flags: VersionFlags, version: nat): (r: bool)
    ensures r <==> Contains(version, flags.v2InterfaceCompatible)
  {
    HasFlagIffBits(version, flags.v2InterfaceCompatible);
    HasFlag(version, flags.v2InterfaceCompatible)
  }

  /** Either V2 flavour: plain V2 or the interface-compatible V2. */
  function IsEitherRemotingV2(flags: VersionFlags, version: nat): (r: bool)
    ensures r <==> Contains(version, flags.v2) || Contains(version, flags.v2InterfaceCompatible)
  {
    IsRemotingV2(flags, version) || IsRemotingV2InterfaceCompatibleVersion(flags, version)
  }

  /** A value that is exactly one flag has that flag. */
  lemma {:induction false} FlagHasItself(flag: nat)
    ensures HasFlag(flag, flag)
  {
    HasFlagIffBits(flag, flag);
  }
}
