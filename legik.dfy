/**
 * The default leg IK strategy: side-qualified bone names, the number of bones
 * per leg segment, the ordered bone chain of a leg, and the rotation limits and
 * locks it applies to an armature.
 *
 * The host calls (switching the active object's mode and the two rig-service
 * calls) are recorded by `PoseHost` as a call log plus the current mode, so
 * every property of the constraint helpers is a statement about that log.
 */
module LegIk {
  import opened Sequences

  datatype Axis = X | Y | Z

  /** One entry of an axis table: the axis key and its [min, max] pair in degrees. */
  datatype AxisLimit = AxisLimit(axis: Axis, minAngle: int, maxAngle: int)

  datatype Mode = ObjectMode | EditMode | PoseMode

  /** An armature object, as an opaque identity. */
  type ArmatureId = nat

  /** One call into the host, in the order it was made. */
  datatype RigCall =
    | ModeSetCall(mode: Mode)
    | LimitCall(bone: string, armature: ArmatureId, axis: Axis, minAngle: int, maxAngle: int)
    | LockCall(bone: string, armature: ArmatureId, lockX: bool, lockY: bool, lockZ: bool)

  /** `_ROTATION_LIMITS`: for each unsided bone, its axes in the table's key order. */
  const ROTATION_LIMITS: map<string, seq<AxisLimit>> := map[
    "lowerleg01" := [AxisLimit(X, -5, 150), AxisLimit(Y, -30, 30)],
    "lowerleg02" := [AxisLimit(Y, -30, 30)],
    "upperleg01" := [AxisLimit(X, -120, 40), AxisLimit(Y, -45, 45), AxisLimit(Z, -70, 30)],
    "upperleg02" := [AxisLimit(Y, -45, 45)],
    "pelvis" := [AxisLimit(X, -15, 15), AxisLimit(Y, -45, 33), AxisLimit(Z, -10, 10)]
  ]

  /** `_ROTATION_LOCKS`: for each unsided bone, the axes it declares locked. */
  const ROTATION_LOCKS: map<string, map<Axis, bool>> := map[
    "lowerleg01" := map[Z := true],
    "lowerleg02" := map[X := true, Z := true],
    "upperleg02" := map[X := true, Z := true]
  ]

  // ---------------------------------------------------------------------------
  // Names and counts

  /** `_sided`: the bone name qualified by the leg's side. The side suffix is `.R`
      exactly for "right" and `.L` for every other value. */
  function Sided(whichLeg: string, name: string): (r: string)
    ensures |r| == |name| + 2
    ensures r[..|name|] == name
    ensures r[|name|] == '.'
    ensures r[|name| + 1] == (if whichLeg == "right" then 'R' else 'L')
  {
    if whichLeg == "right" then name + ".R" else name + ".L"
  }

  /** Left and right names differ, and only in their last character. */
  lemma SidesDifferOnlyInSuffix(other: string, name: string)
    requires other != "right"
    ensures |Sided("right", name)| == |Sided(other, name)|
    ensures Sided("right", name) != Sided(other, name)
    ensures Sided("right", name)[..|name| + 1] == Sided(other, name)[..|name| + 1]
  {
    assert Sided("right", name)[|name| + 1] != Sided(other, name)[|name| + 1];
  }

  /** The segments of a leg, from hip to foot. */
  datatype Segment = Hip | UpperLeg | LowerLeg | Foot

  /** Every bone of a leg, proximal to distal, with the segment it belongs to. */
  const LEG_CHAIN: seq<(string, Segment)> := [
    ("pelvis", Hip),
    ("upperleg01", UpperLeg), ("upperleg02", UpperLeg),
    ("lowerleg01", LowerLeg), ("lowerleg02", LowerLeg),
    ("foot", Foot)
  ]

  /** The four include flags of `get_reverse_list_of_bones_in_leg`. */
  datatype SegmentFlags = SegmentFlags(includeFoot: bool, includeLowerLeg: bool, includeUpperLeg: bool, includeHip: bool)

  const ALL_SEGMENTS := SegmentFlags(true, true, true, true)

  function Includes(flags: SegmentFlags, s: Segment): bool
  {
    match s
    case Hip => flags.includeHip
    case UpperLeg => flags.includeUpperLeg
    case LowerLeg => flags.includeLowerLeg
    case Foot => flags.includeFoot
  }

  /** What one chain entry contributes to the selection. */
  function Pick(whichLeg: string, flags: SegmentFlags, e: (string, Segment)): seq<string>
  {
    if Includes(flags, e.1) then [Sided(whichLeg, e.0)] else []
  }

  /** The sided names of the chain entries whose segment is included, in chain order. */
  function SelectBones(whichLeg: string, flags: SegmentFlags, chain: seq<(string, Segment)>): seq<string>
  {
    if chain == [] then []
    else Pick(whichLeg, flags, chain[0]) + SelectBones(whichLeg, flags, chain[1..])
  }

  /** The number of chain entries that belong to a segment. */
  function SegmentSize(chain: seq<(string, Segment)>, s: Segment): nat
  {
    if chain == [] then 0
    else (if chain[0].1 == s then 1 else 0) + SegmentSize(chain[1..], s)
  }

  /** A name is selected exactly when some included chain entry has that sided name. */
  lemma {:induction false} SelectBonesMembership(whichLeg: string, flags: SegmentFlags, chain: seq<(string, Segment)>, n: string)
    ensures n in SelectBones(whichLeg, flags, chain) <==>
            exists i :: 0 <= i < |chain| && Includes(flags, chain[i].1) && n == Sided(whichLeg, chain[i].0)
  {
    if chain != [] {
      SelectBonesMembership(whichLeg, flags, chain[1..], n);
      if n in SelectBones(whichLeg, flags, chain[1..]) {
        var i :| 0 <= i < |chain[1..]| && Includes(flags, chain[1..][i].1) && n == Sided(whichLeg, chain[1..][i].0);
        assert chain[i + 1] == chain[1..][i];
      }
      if exists i :: 0 <= i < |chain| && Includes(flags, chain[i].1) && n == Sided(whichLeg, chain[i].0) {
        var i :| 0 <= i < |chain| && Includes(flags, chain[i].1) && n == Sided(whichLeg, chain[i].0);
        if i > 0 {
          assert chain[1..][i - 1] == chain[i];
        }
      }
    }
  }

  /** Each included segment contributes exactly its own number of bones. */
  lemma {:induction false} SelectBonesLength(whichLeg: string, flags: SegmentFlags, chain: seq<(string, Segment)>)
    ensures |SelectBones(whichLeg, flags, chain)| ==
            (if flags.includeHip then SegmentSize(chain, Hip) else 0)
            + (if flags.includeUpperLeg then SegmentSize(chain, UpperLeg) else 0)
            + (if flags.includeLowerLeg then SegmentSize(chain, LowerLeg) else 0)
            + (if flags.includeFoot then SegmentSize(chain, Foot) else 0)
  {
    if chain != [] {
      SelectBonesLength(whichLeg, flags, chain[1..]);
    }
  }

  /** The segment sizes of the leg chain: hip 1, upper leg 2, lower leg 2, foot 1. */
  lemma LegChainSegmentSizes()
    ensures SegmentSize(LEG_CHAIN, Hip) == 1
    ensures SegmentSize(LEG_CHAIN, UpperLeg) == 2
    ensures SegmentSize(LEG_CHAIN, LowerLeg) == 2
    ensures SegmentSize(LEG_CHAIN, Foot) == 1
  {
    assert LEG_CHAIN[1..][1..][1..][1..][1..][1..] == [];
  }

  // ---------------------------------------------------------------------------
  // The rig calls the constraint helpers issue

  /** A limit call for each entry of an axis table, in table order. */
  function LimitCallsFor(bone: string, armature: ArmatureId, axes: seq<AxisLimit>): seq<RigCall>
  {
    if axes == [] then []
    else
      var last := axes[|axes| - 1];
      LimitCallsFor(bone, armature, axes[..|axes| - 1]) + [LimitCall(bone, armature, last.axis, last.minAngle, last.maxAngle)]
  }

  /** The limit calls `_sided_rotation_limit` issues after switching mode. */
  function LimitCalls(whichLeg: string, unsidedName: string, armature: ArmatureId): seq<RigCall>
  {
    if unsidedName in ROTATION_LIMITS then LimitCallsFor(Sided(whichLeg, unsidedName), armature, ROTATION_LIMITS[unsidedName])
    else []
  }

  /** An axis counts as locked when it is present in the lock table and true there. */
  function AxisLocked(locks: map<Axis, bool>, a: Axis): bool
  {
    a in locks && locks[a]
  }

  /** The lock call `_sided_rotation_lock` issues after switching mode. */
  function LockCalls(whichLeg: string, unsidedName: string, armature: ArmatureId): seq<RigCall>
  {
    if unsidedName in ROTATION_LOCKS then
      var locks := ROTATION_LOCKS[unsidedName];
      [LockCall(Sided(whichLeg, unsidedName), armature, AxisLocked(locks, X), AxisLocked(locks, Y), AxisLocked(locks, Z))]
    else []
  }

  /** The whole log of `_sided_rotation_limit`. */
  function LimitStep(whichLeg: string, unsidedName: string, armature: ArmatureId): seq<RigCall>
  {
    [ModeSetCall(PoseMode)] + LimitCalls(whichLeg, unsidedName, armature)
  }

  /** The whole log of `_sided_rotation_lock`. */
  function LockStep(whichLeg: string, unsidedName: string, armature: ArmatureId): seq<RigCall>
  {
    [ModeSetCall(PoseMode)] + LockCalls(whichLeg, unsidedName, armature)
  }

  function LowerLegCalls(whichLeg: string, armature: ArmatureId): seq<RigCall>
  {
    LockStep(whichLeg, "lowerleg02", armature) + LimitStep(whichLeg, "lowerleg01", armature)
  }

  function UpperLegCalls(whichLeg: string, armature: ArmatureId): seq<RigCall>
  {
    LockStep(whichLeg, "upperleg02", armature) + LimitStep(whichLeg, "upperleg01", armature)
  }

  function HipCalls(whichLeg: string, armature: ArmatureId): seq<RigCall>
  {
    [ModeSetCall(PoseMode)] + LimitStep(whichLeg, "pelvis", armature) + LimitStep(whichLeg, "clavicle", armature)
  }

  /** One limit call per table entry, carrying that entry's axis and [min, max] pair. */
  lemma {:induction false} LimitCallsForAt(bone: string, armature: ArmatureId, axes: seq<AxisLimit>)
    ensures |LimitCallsFor(bone, armature, axes)| == |axes|
    ensures forall k :: 0 <= k < |axes| ==>
              LimitCallsFor(bone, armature, axes)[k] == LimitCall(bone, armature, axes[k].axis, axes[k].minAngle, axes[k].maxAngle)
  {
    if axes != [] {
      var init := axes[..|axes| - 1];
      LimitCallsForAt(bone, armature, init);
      forall k | 0 <= k < |init|
        ensures axes[k] == init[k]
      {
      }
    }
  }

  /** `_sided_rotation_limit` issues one call per axis key of the bone's table entry, and none for a bone not in the table. */
  lemma LimitCallsMatchTable(whichLeg: string, unsidedName: string, armature: ArmatureId)
    ensures unsidedName !in ROTATION_LIMITS ==> LimitCalls(whichLeg, unsidedName, armature) == []
    ensures unsidedName in ROTATION_LIMITS ==>
              var axes := ROTATION_LIMITS[unsidedName];
              |LimitCalls(whichLeg, unsidedName, armature)| == |axes| &&
              forall k :: 0 <= k < |axes| ==>
                LimitCalls(whichLeg, unsidedName, armature)[k]
                == LimitCall(Sided(whichLeg, unsidedName), armature, axes[k].axis, axes[k].minAngle, axes[k].maxAngle)
  {
    if unsidedName in ROTATION_LIMITS {
      LimitCallsForAt(Sided(whichLeg, unsidedName), armature, ROTATION_LIMITS[unsidedName]);
    }
  }

  /** `_sided_rotation_lock` issues one call for a bone in the lock table and none otherwise;
      each flag is set exactly when that axis is present and true. */
  lemma LockCallsMatchTable(whichLeg: string, unsidedName: string, armature: ArmatureId)
    ensures unsidedName !in ROTATION_LOCKS ==> LockCalls(whichLeg, unsidedName, armature) == []
    ensures unsidedName in ROTATION_LOCKS ==>
              var c := LockCalls(whichLeg, unsidedName, armature);
              var locks := ROTATION_LOCKS[unsidedName];
              |c| == 1 && c[0].LockCall? && c[0].bone == Sided(whichLeg, unsidedName) && c[0].armature == armature &&
              (c[0].lockX <==> X in locks && locks[X]) &&
              (c[0].lockY <==> Y in locks && locks[Y]) &&
              (c[0].lockZ <==> Z in locks && locks[Z])
  {
  }

  /** Every limit in the table has its minimum at or below its maximum. */
  lemma TableLimitsOrdered()
    ensures forall b, k :: b in ROTATION_LIMITS && 0 <= k < |ROTATION_LIMITS[b]| ==>
              ROTATION_LIMITS[b][k].minAngle <= ROTATION_LIMITS[b][k].maxAngle
  {
  }

  /** No bone declares both a lock and a limit on the same axis. */
  lemma TableLocksAndLimitsDisjoint()
    ensures forall b, k :: b in ROTATION_LIMITS && b in ROTATION_LOCKS && 0 <= k < |ROTATION_LIMITS[b]| ==>
              !AxisLocked(ROTATION_LOCKS[b], ROTATION_LIMITS[b][k].axis)
  {
  }

  /** The exact lower-leg log: a lock on `lowerleg02` (X and Z) and then the limits of `lowerleg01`. */
  lemma LowerLegLog(whichLeg: string, armature: ArmatureId)
    ensures LowerLegCalls(whichLeg, armature) == [
              ModeSetCall(PoseMode),
              LockCall(Sided(whichLeg, "lowerleg02"), armature, true, false, true),
              ModeSetCall(PoseMode),
              LimitCall(Sided(whichLeg, "lowerleg01"), armature, X, -5, 150),
              LimitCall(Sided(whichLeg, "lowerleg01"), armature, Y, -30, 30)]
  {
    LimitCallsMatchTable(whichLeg, "lowerleg01", armature);
  }

  /** The exact upper-leg log: a lock on `upperleg02` (X and Z) and then the limits of `upperleg01`. */
  lemma UpperLegLog(whichLeg: string, armature: ArmatureId)
    ensures UpperLegCalls(whichLeg, armature) == [
              ModeSetCall(PoseMode),
              LockCall(Sided(whichLeg, "upperleg02"), armature, true, false, true),
              ModeSetCall(PoseMode),
              LimitCall(Sided(whichLeg, "upperleg01"), armature, X, -120, 40),
              LimitCall(Sided(whichLeg, "upperleg01"), armature, Y, -45, 45),
              LimitCall(Sided(whichLeg, "upperleg01"), armature, Z, -70, 30)]
  {
    LimitCallsMatchTable(whichLeg, "upperleg01", armature);
  }

  /** The exact hip log: the limits of `pelvis`; the `clavicle` step only switches mode. */
  lemma HipLog(whichLeg: string, armature: ArmatureId)
    ensures HipCalls(whichLeg, armature) == [
              ModeSetCall(PoseMode),
              ModeSetCall(PoseMode),
              LimitCall(Sided(whichLeg, "pelvis"), armature, X, -15, 15),
              LimitCall(Sided(whichLeg, "pelvis"), armature, Y, -45, 33),
              LimitCall(Sided(whichLeg, "pelvis"), armature, Z, -10, 10),
              ModeSetCall(PoseMode)]
  {
    LimitCallsMatchTable(whichLeg, "pelvis", armature);
    LimitCallsMatchTable(whichLeg, "clavicle", armature);
  }

  /** A log that starts by entering pose mode and never switches to any other mode. */
  predicate PoseFirstNeverRestored(calls: seq<RigCall>)
  {
    |calls| > 0 && calls[0] == ModeSetCall(PoseMode) &&
    forall k :: 0 <= k < |calls| && calls[k].ModeSetCall? ==> calls[k].mode == PoseMode
  }

  /** Every constraint helper enters pose mode before its rig calls and never leaves it. */
  lemma ConstraintLogsStayInPoseMode(whichLeg: string, armature: ArmatureId)
    ensures PoseFirstNeverRestored(LowerLegCalls(whichLeg, armature))
    ensures PoseFirstNeverRestored(UpperLegCalls(whichLeg, armature))
    ensures PoseFirstNeverRestored(HipCalls(whichLeg, armature))
  {
    LowerLegStaysInPoseMode(whichLeg, armature);
    UpperLegStaysInPoseMode(whichLeg, armature);
    HipStaysInPoseMode(whichLeg, armature);
  }

  lemma LowerLegStaysInPoseMode(whichLeg: string, armature: ArmatureId)
    ensures PoseFirstNeverRestored(LowerLegCalls(whichLeg, armature))
  {
    LowerLegLog(whichLeg, armature);
  }

  lemma UpperLegStaysInPoseMode(whichLeg: string, armature: ArmatureId)
    ensures PoseFirstNeverRestored(UpperLegCalls(whichLeg, armature))
  {
    UpperLegLog(whichLeg, armature);
  }

  lemma HipStaysInPoseMode(whichLeg: string, armature: ArmatureId)
    ensures PoseFirstNeverRestored(HipCalls(whichLeg, armature))
  {
    HipLog(whichLeg, armature);
  }

  /** The lower-leg helper locks only the sided `lowerleg02` and limits only the sided `lowerleg01`. */
  lemma LowerLegBones(whichLeg: string, armature: ArmatureId)
    ensures forall c :: c in LowerLegCalls(whichLeg, armature) && c.LockCall? ==> c.bone == Sided(whichLeg, "lowerleg02")
    ensures forall c :: c in LowerLegCalls(whichLeg, armature) && c.LimitCall? ==> c.bone == Sided(whichLeg, "lowerleg01")
  {
    LowerLegLog(whichLeg, armature);
  }

  /** The upper-leg helper locks only the sided `upperleg02` and limits only the sided `upperleg01`. */
  lemma UpperLegBones(whichLeg: string, armature: ArmatureId)
    ensures forall c :: c in UpperLegCalls(whichLeg, armature) && c.LockCall? ==> c.bone == Sided(whichLeg, "upperleg02")
    ensures forall c :: c in UpperLegCalls(whichLeg, armature) && c.LimitCall? ==> c.bone == Sided(whichLeg, "upperleg01")
  {
    UpperLegLog(whichLeg, armature);
  }

  /** The hip helper locks nothing. */
  lemma HipLocksNothing(whichLeg: string, armature: ArmatureId)
    ensures forall c :: c in HipCalls(whichLeg, armature) ==> !c.LockCall?
  {
    HipLog(whichLeg, armature);
  }

  /** Two kinds of table entry are never issued: the Y limits listed for `lowerleg02` and
      `upperleg02` (those bones only get a lock), and the Z lock listed for `lowerleg01`
      (that bone only gets limits). */
  lemma UnusedTableEntriesNeverIssued(whichLeg: string, armature: ArmatureId)
    ensures forall c :: c in LowerLegCalls(whichLeg, armature) && c.LimitCall? ==> c.bone != Sided(whichLeg, "lowerleg02")
    ensures forall c :: c in UpperLegCalls(whichLeg, armature) && c.LimitCall? ==> c.bone != Sided(whichLeg, "upperleg02")
    ensures forall c :: c in LowerLegCalls(whichLeg, armature) && c.LockCall? ==> c.bone != Sided(whichLeg, "lowerleg01")
    ensures forall c :: c in UpperLegCalls(whichLeg, armature) && c.LockCall? ==> c.bone != Sided(whichLeg, "lowerleg01")
    ensures forall c :: c in HipCalls(whichLeg, armature) ==> !c.LockCall?
  {
    LowerLegBones(whichLeg, armature);
    UpperLegBones(whichLeg, armature);
    HipLocksNothing(whichLeg, armature);
    assert Sided(whichLeg, "lowerleg01")[9] != Sided(whichLeg, "lowerleg02")[9];
    assert Sided(whichLeg, "upperleg01")[9] != Sided(whichLeg, "upperleg02")[9];
    assert Sided(whichLeg, "upperleg02")[0] != Sided(whichLeg, "lowerleg01")[0];
  }

  // ---------------------------------------------------------------------------
  // The host, as a recorder

  /** The host side of the constraint helpers: the active object's mode and the log of calls. */
  class PoseHost {
    var mode: Mode
    var calls: seq<RigCall>

    constructor (initialMode: Mode)
      ensures mode == initialMode && calls == []
    {
      mode := initialMode;
      calls := [];
    }

    /** `bpy.ops.object.mode_set(mode=..., toggle=False)`. */
    method ModeSet(m: Mode)
      modifies this
      ensures mode == m
      ensures calls == old(calls) + [ModeSetCall(m)]
    {
      mode := m;
      calls := calls + [ModeSetCall(m)];
    }

    /** `RigService.set_ik_rotation_limits`. */
    method SetIkRotationLimits(bone: string, armature: ArmatureId, axis: Axis, minAngle: int, maxAngle: int)
      modifies this
      ensures mode == old(mode)
      ensures calls == old(calls) + [LimitCall(bone, armature, axis, minAngle, maxAngle)]
    {
      calls := calls + [LimitCall(bone, armature, axis, minAngle, maxAngle)];
    }

    /** `RigService.add_ik_rotation_lock_to_pose_bone`. */
    method AddIkRotationLockToPoseBone(bone: string, armature: ArmatureId, lockX: bool, lockY: bool, lockZ: bool)
      modifies this
      ensures mode == old(mode)
      ensures calls == old(calls) + [LockCall(bone, armature, lockX, lockY, lockZ)]
    {
      calls := calls + [LockCall(bone, armature, lockX, lockY, lockZ)];
    }
  }

  // ---------------------------------------------------------------------------
  // The strategy

  class DefaultLegIk {
    const whichLeg: string

    constructor (whichLeg: string)
      ensures this.whichLeg == whichLeg
    {
      this.whichLeg := whichLeg;
    }

    function LowerLegName(): string { Sided(whichLeg, "lowerleg02") }
    function UpperLegName(): string { Sided(whichLeg, "upperleg02") }
    function HipName(): string { Sided(whichLeg, "pelvis") }
    function FootName(): string { Sided(whichLeg, "foot") }
    function LowerLegCount(): nat { 2 }
    function UpperLegCount(): nat { 2 }
    function HipCount(): nat { 1 }

    method SidedRotationLimit(unsidedName: string, armature: ArmatureId, host: PoseHost)
      modifies host
      ensures host.mode == PoseMode
      ensures host.calls == old(host.calls) + LimitStep(whichLeg, unsidedName, armature)
    {
      host.ModeSet(PoseMode);
      if unsidedName in ROTATION_LIMITS {
        var axes := ROTATION_LIMITS[unsidedName];
        var name := Sided(whichLeg, unsidedName);
        ghost var before := host.calls;
        var i := 0;
        while i < |axes|
          invariant 0 <= i <= |axes|
          invariant host.mode == PoseMode
          invariant host.calls == before + LimitCallsFor(name, armature, axes[..i])
        {
          var limits := axes[i];
          host.SetIkRotationLimits(name, armature, limits.axis, limits.minAngle, limits.maxAngle);
          assert axes[..i + 1][..i] == axes[..i];
          i := i + 1;
        }
        assert axes[..|axes|] == axes;
      }
    }

    method SidedRotationLock(unsidedName: string, armature: ArmatureId, host: PoseHost)
      modifies host
      ensures host.mode == PoseMode
      ensures host.calls == old(host.calls) + LockStep(whichLeg, unsidedName, armature)
    {
      host.ModeSet(PoseMode);
      if unsidedName in ROTATION_LOCKS {
        var locks := ROTATION_LOCKS[unsidedName];
        var x := X in locks && locks[X];
        var y := Y in locks && locks[Y];
        var z := Z in locks && locks[Z];
        var name := Sided(whichLeg, unsidedName);
        host.AddIkRotationLockToPoseBone(name, armature, x, y, z);
      }
    }

    method AddLowerLegRotationConstraints(armature: ArmatureId, host: PoseHost)
      modifies host
      ensures host.mode == PoseMode
      ensures host.calls == old(host.calls) + LowerLegCalls(whichLeg, armature)
    {
      ghost var start := host.calls;
      SidedRotationLock("lowerleg02", armature, host);
      SidedRotationLimit("lowerleg01", armature, host);
      ConcatAssoc(start, LockStep(whichLeg, "lowerleg02", armature), LimitStep(whichLeg, "lowerleg01", armature));
    }

    method AddUpperLegRotationConstraints(armature: ArmatureId, host: PoseHost)
      modifies host
      ensures host.mode == PoseMode
      ensures host.calls == old(host.calls) + UpperLegCalls(whichLeg, armature)
    {
      ghost var start := host.calls;
      SidedRotationLock("upperleg02", armature, host);
      SidedRotationLimit("upperleg01", armature, host);
      ConcatAssoc(start, LockStep(whichLeg, "upperleg02", armature), LimitStep(whichLeg, "upperleg01", armature));
    }

    method AddHipRotationConstraints(armature: ArmatureId, host: PoseHost)
      modifies host
      ensures host.mode == PoseMode
      ensures host.calls == old(host.calls) + HipCalls(whichLeg, armature)
    {
      ghost var start := host.calls;
      host.ModeSet(PoseMode);
      SidedRotationLimit("pelvis", armature, host);
      ghost var pelvis := LimitStep(whichLeg, "pelvis", armature);
      ghost var clavicle := LimitStep(whichLeg, "clavicle", armature);
      SidedRotationLimit("clavicle", armature, host);
      ConcatAssoc(start, [ModeSetCall(PoseMode)], pelvis);
      ConcatAssoc(start, [ModeSetCall(PoseMode)] + pelvis, clavicle);
    }

    /** Builds the list hip to foot (proximal to distal), whatever the name says. */
    method GetReverseListOfBonesInLeg(includeFoot: bool, includeLowerLeg: bool, includeUpperLeg: bool, includeHip: bool)
      returns (boneList: seq<string>)
      ensures boneList == SelectBones(whichLeg, SegmentFlags(includeFoot, includeLowerLeg, includeUpperLeg, includeHip), LEG_CHAIN)
    {
      ghost var hip := if includeHip then [Sided(whichLeg, "pelvis")] else [];
      ghost var upper := if includeUpperLeg then [Sided(whichLeg, "upperleg01"), Sided(whichLeg, "upperleg02")] else [];
      ghost var lower := if includeLowerLeg then [Sided(whichLeg, "lowerleg01"), Sided(whichLeg, "lowerleg02")] else [];
      boneList := [];
      if includeHip {
        boneList := boneList + [Sided(whichLeg, "pelvis")];
      }
      assert boneList == hip;
      if includeUpperLeg {
        boneList := boneList + [Sided(whichLeg, "upperleg01")];
        boneList := boneList + [Sided(whichLeg, "upperleg02")];
      }
      assert boneList == hip + upper;
      if includeLowerLeg {
        boneList := boneList + [Sided(whichLeg, "lowerleg01")];
        boneList := boneList + [Sided(whichLeg, "lowerleg02")];
      }
      assert boneList == hip + upper + lower;
      if includeFoot {
        boneList := boneList + [Sided(whichLeg, "foot")];
      }
      LegChainSelection(whichLeg, SegmentFlags(includeFoot, includeLowerLeg, includeUpperLeg, includeHip));
    }
  }

  /** One step of the selection: the head entry, then the rest. */
  lemma SelectBonesCons(whichLeg: string, flags: SegmentFlags, e: (string, Segment), rest: seq<(string, Segment)>)
    ensures SelectBones(whichLeg, flags, [e] + rest) == Pick(whichLeg, flags, e) + SelectBones(whichLeg, flags, rest)
  {
    assert ([e] + rest)[1..] == rest;
  }

  /** The selection from the leg chain, entry by entry. */
  lemma LegChainEntries(whichLeg: string, flags: SegmentFlags)
    ensures SelectBones(whichLeg, flags, LEG_CHAIN) ==
            Pick(whichLeg, flags, ("pelvis", Hip)) + (Pick(whichLeg, flags, ("upperleg01", UpperLeg)) +
            (Pick(whichLeg, flags, ("upperleg02", UpperLeg)) + (Pick(whichLeg, flags, ("lowerleg01", LowerLeg)) +
            (Pick(whichLeg, flags, ("lowerleg02", LowerLeg)) + Pick(whichLeg, flags, ("foot", Foot))))))
  {
    var c5: seq<(string, Segment)> := [("foot", Foot)];
    var c4 := [("lowerleg02", LowerLeg)] + c5;
    var c3 := [("lowerleg01", LowerLeg)] + c4;
    var c2 := [("upperleg02", UpperLeg)] + c3;
    var c1 := [("upperleg01", UpperLeg)] + c2;
    assert LEG_CHAIN == [("pelvis", Hip)] + c1;
    assert SelectBones(whichLeg, flags, c5) == Pick(whichLeg, flags, ("foot", Foot)) by {
      SelectBonesCons(whichLeg, flags, ("foot", Foot), []);
      assert c5 == [("foot", Foot)] + [];
    }
    SelectBonesCons(whichLeg, flags, ("lowerleg02", LowerLeg), c5);
    SelectBonesCons(whichLeg, flags, ("lowerleg01", LowerLeg), c4);
    SelectBonesCons(whichLeg, flags, ("upperleg02", UpperLeg), c3);
    SelectBonesCons(whichLeg, flags, ("upperleg01", UpperLeg), c2);
    SelectBonesCons(whichLeg, flags, ("pelvis", Hip), c1);
  }

  lemma Regroup<T>(h: seq<T>, u1: seq<T>, u2: seq<T>, l1: seq<T>, l2: seq<T>, f: seq<T>)
    ensures h + (u1 + (u2 + (l1 + (l2 + f)))) == h + (u1 + u2) + (l1 + l2) + f
  {
    ConcatAssoc(l1, l2, f);
    ConcatAssoc(u1, u2, (l1 + l2) + f);
    ConcatAssoc(h, u1 + u2, (l1 + l2) + f);
    ConcatAssoc(h + (u1 + u2), l1 + l2, f);
  }

  /** The selection from the leg chain, segment by segment. */
  lemma LegChainSelection(whichLeg: string, flags: SegmentFlags)
    ensures SelectBones(whichLeg, flags, LEG_CHAIN) ==
            (if flags.includeHip then [Sided(whichLeg, "pelvis")] else [])
            + (if flags.includeUpperLeg then [Sided(whichLeg, "upperleg01"), Sided(whichLeg, "upperleg02")] else [])
            + (if flags.includeLowerLeg then [Sided(whichLeg, "lowerleg01"), Sided(whichLeg, "lowerleg02")] else [])
            + (if flags.includeFoot then [Sided(whichLeg, "foot")] else [])
  {
    LegChainEntries(whichLeg, flags);
    var u1 := Pick(whichLeg, flags, ("upperleg01", UpperLeg));
    var u2 := Pick(whichLeg, flags, ("upperleg02", UpperLeg));
    var l1 := Pick(whichLeg, flags, ("lowerleg01", LowerLeg));
    var l2 := Pick(whichLeg, flags, ("lowerleg02", LowerLeg));
    Regroup(Pick(whichLeg, flags, ("pelvis", Hip)), u1, u2, l1, l2, Pick(whichLeg, flags, ("foot", Foot)));
    assert (if flags.includeUpperLeg then [Sided(whichLeg, "upperleg01"), Sided(whichLeg, "upperleg02")] else []) == u1 + u2;
    assert (if flags.includeLowerLeg then [Sided(whichLeg, "lowerleg01"), Sided(whichLeg, "lowerleg02")] else []) == l1 + l2;
  }

  /** With every flag set the chain is the six sided bones, hip first. */
  lemma FullLegChain(whichLeg: string)
    ensures SelectBones(whichLeg, ALL_SEGMENTS, LEG_CHAIN) == [
              Sided(whichLeg, "pelvis"), Sided(whichLeg, "upperleg01"), Sided(whichLeg, "upperleg02"),
              Sided(whichLeg, "lowerleg01"), Sided(whichLeg, "lowerleg02"), Sided(whichLeg, "foot")]
  {
    LegChainSelection(whichLeg, ALL_SEGMENTS);
  }

  /** The bone list has hip·1 + upper·2 + lower·2 + foot·1 entries, and holds a name
      exactly when that name is the sided name of a bone of an included segment. */
  lemma BoneListContents(whichLeg: string, flags: SegmentFlags, n: string)
    ensures |SelectBones(whichLeg, flags, LEG_CHAIN)| ==
            (if flags.includeHip then 1 else 0) + (if flags.includeUpperLeg then 2 else 0)
            + (if flags.includeLowerLeg then 2 else 0) + (if flags.includeFoot then 1 else 0)
    ensures n in SelectBones(whichLeg, flags, LEG_CHAIN) <==>
            exists i :: 0 <= i < |LEG_CHAIN| && Includes(flags, LEG_CHAIN[i].1) && n == Sided(whichLeg, LEG_CHAIN[i].0)
  {
    SelectBonesLength(whichLeg, flags, LEG_CHAIN);
    LegChainSegmentSizes();
    SelectBonesMembership(whichLeg, flags, LEG_CHAIN, n);
  }

  /** The getters agree with the chain: each count is the size of its segment, and each
      name getter gives the most distal bone of its segment. */
  lemma GettersMatchChain(leg: DefaultLegIk)
    ensures leg.HipCount() == SegmentSize(LEG_CHAIN, Hip)
    ensures leg.UpperLegCount() == SegmentSize(LEG_CHAIN, UpperLeg)
    ensures leg.LowerLegCount() == SegmentSize(LEG_CHAIN, LowerLeg)
    ensures var hip := SelectBones(leg.whichLeg, SegmentFlags(false, false, false, true), LEG_CHAIN);
            hip != [] && hip[|hip| - 1] == leg.HipName()
    ensures var upper := SelectBones(leg.whichLeg, SegmentFlags(false, false, true, false), LEG_CHAIN);
            upper != [] && upper[|upper| - 1] == leg.UpperLegName()
    ensures var lower := SelectBones(leg.whichLeg, SegmentFlags(false, true, false, false), LEG_CHAIN);
            lower != [] && lower[|lower| - 1] == leg.LowerLegName()
    ensures var foot := SelectBones(leg.whichLeg, SegmentFlags(true, false, false, false), LEG_CHAIN);
            foot != [] && foot[|foot| - 1] == leg.FootName()
  {
    LegChainSegmentSizes();
    LegChainSelection(leg.whichLeg, SegmentFlags(false, false, false, true));
    LegChainSelection(leg.whichLeg, SegmentFlags(false, false, true, false));
    LegChainSelection(leg.whichLeg, SegmentFlags(false, true, false, false));
    LegChainSelection(leg.whichLeg, SegmentFlags(true, false, false, false));
  }
}
