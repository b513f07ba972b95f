/**
  The per-frame spring-bone update of the VRMC_springBone-1.0 "Update
  procedure": every VRM 1.0 armature, every spring, every consecutive
  (head, tail) pair of joints.  A pair passes a fixed sequence of guards,
  then the integrator runs and the head's rotation and joint state are
  written.

  The numerics (rest matrices, verlet step, length constraint, rotation
  derivation) are the parameter `step`: everything below holds for every
  integrator.
*/
module SpringBoneHandler {
  import opened Wrappers
  import opened PoseModel

  const QUATERNION: string := "QUATERNION"
  const ARMATURE: string := "ARMATURE"

  /** The physical parameters of a joint (`drag_force`, `stiffness`, `gravity_dir`, `gravity_power`). */
  datatype JointParams = JointParams(dragForce: real, stiffness: real, gravityDir: Vec3, gravityPower: real)

  /** The persisted simulation state of a joint: `state.prev_tail` and `state.initialized`. */
  datatype StateValue = StateValue(prevTail: Vec3, initialized: bool)

  /** The property defaults of a joint state never written: a zero vector, not initialized. */
  const InitialState: StateValue := StateValue(Vec3(0.0, 0.0, 0.0), false)

  /** A joint of a spring: the name of its node (bone) and its parameters. */
  datatype Joint = Joint(node: Name, params: JointParams)

  datatype Spring = Spring(joints: seq<Joint>)

  /** Where a joint property group sits: joint `joint` of spring `spring`. */
  datatype JointId = JointId(spring: int, joint: int)

  /**
    `obj.data.vrm_addon_extension`: the VRM extension of an armature data
    block.  The joint states are properties of the joints, so every object
    that shares the data block shares them.  `states` holds the states that
    were written; the others still have their defaults.
  */
  class VrmExtension {
    const isVrm1: bool
    const springs: seq<Spring>
    var states: map<JointId, StateValue>

    constructor (isVrm1: bool, springs: seq<Spring>)
      ensures this.isVrm1 == isVrm1 && this.springs == springs && states == map[]
    {
      this.isVrm1 := isVrm1;
      this.springs := springs;
      states := map[];
    }

    /** The current state of joint `id`. */
    function StateOf(id: JointId): (r: StateValue)
      reads this
      ensures id !in states ==> r == InitialState
    {
      StateIn(states, id)
    }
  }

  /** The state of joint `id` in a table of written states: the defaults where nothing was written. */
  function StateIn(states: map<JointId, StateValue>, id: JointId): StateValue
  {
    if id in states then states[id] else InitialState
  }

  /**
    A Blender object as the update sees it: its type, the VRM extension of
    its data, its world matrix, and its pose bones (the only part of the
    object the update writes).
  */
  class BlenderObject {
    const objectType: string
    const ext: VrmExtension
    const matrixWorld: Mat4
    var pose: Pose

    constructor (objectType: string, ext: VrmExtension, matrixWorld: Mat4, pose: Pose)
      ensures this.objectType == objectType && this.ext == ext
      ensures this.matrixWorld == matrixWorld && this.pose == pose
    {
      this.objectType := objectType;
      this.ext := ext;
      this.matrixWorld := matrixWorld;
      this.pose := pose;
    }
  }

  /** Everything the numerics of one pair read. */
  datatype StepInput = StepInput(
    deltaTime: real,
    params: JointParams,
    matrixWorld: Mat4,
    head: PoseBone,
    headParent: PoseBone,
    tail: PoseBone,
    currentTail: Vec3,
    prevTail: Vec3)

  /** The integrated, length-constrained tail and the head rotation derived from it. */
  datatype StepOutput = StepOutput(nextTail: Vec3, rotation: Quat)

  type Integrator = StepInput -> StepOutput

  datatype SkipReason =
    | HeadMissing | HeadConnected | HeadNotLocalLocation
    | TailMissing | TailConnected | TailNotLocalLocation
    | NotParented

  /**
    How a pair update ends: an early return (with its reason), the
    AttributeError raised when the head bone has no parent, or a completed
    update.
  */
  datatype PairOutcome = Skipped(reason: SkipReason) | Raised | Updated

  // ---------------------------------------------------------------------
  // Scheduling: which pairs are visited, in which order
  // ---------------------------------------------------------------------

  /** Python's `zip`: pairs up to the shorter of the two sequences. */
  function Zip<A, B>(a: seq<A>, b: seq<B>): seq<(A, B)>
    decreases |a|
  {
    if a == [] || b == [] then [] else [(a[0], b[0])] + Zip(a[1..], b[1..])
  }

  lemma {:induction false} ZipShape<A, B>(a: seq<A>, b: seq<B>)
    ensures |Zip(a, b)| == if |a| < |b| then |a| else |b|
    ensures forall i :: 0 <= i < |Zip(a, b)| ==> Zip(a, b)[i] == (a[i], b[i])
    decreases |a|
  {
    if a != [] && b != [] {
      ZipShape(a[1..], b[1..]);
    }
  }

  /** Python's `s[1:]`, which is empty for an empty `s`. */
  function DropFirst<T>(s: seq<T>): seq<T>
  {
    if s == [] then [] else s[1..]
  }

  /** `zip(spring.joints, spring.joints[1:])`. */
  function Pairs(joints: seq<Joint>): seq<(Joint, Joint)>
  {
    Zip(joints, DropFirst(joints))
  }

  /** A spring of n >= 1 joints has n - 1 pairs, the consecutive joints in index order; none with 0 or 1 joints. */
  lemma PairsShape(joints: seq<Joint>)
    ensures |Pairs(joints)| == if |joints| <= 1 then 0 else |joints| - 1
    ensures forall i :: 0 <= i < |Pairs(joints)| ==> Pairs(joints)[i] == (joints[i], joints[i + 1])
  {
    ZipShape(joints, DropFirst(joints));
  }

  /** The pairs of all springs, spring by spring. */
  function AllPairs(springs: seq<Spring>): seq<(Joint, Joint)>
    decreases |springs|
  {
    if springs == [] then [] else Pairs(springs[0].joints) + AllPairs(springs[1..])
  }

  /** The pairs `update_object` visits: none unless the object is a VRM 1.0 armature. */
  function ScheduledPairs(objectType: string, isVrm1: bool, springs: seq<Spring>): seq<(Joint, Joint)>
  {
    if objectType != ARMATURE then []
    else if !isVrm1 then []
    else AllPairs(springs)
  }

  /** Objects that are not armatures, or not VRM 1.0, have no pair visited. */
  lemma SkippedObjectsHaveNoPairs(objectType: string, isVrm1: bool, springs: seq<Spring>)
    requires objectType != ARMATURE || !isVrm1
    ensures ScheduledPairs(objectType, isVrm1, springs) == []
  {
  }

  // ---------------------------------------------------------------------
  // One pair: guards, state and rotation writes
  // ---------------------------------------------------------------------

  /**
    The guards of `update_spring_joint_pair` in source order: `Updated` when
    all pass and the head bone has a parent, `Raised` when all pass but the
    head has none, otherwise the first failing guard.
  */
  function PairGuards(pose: Pose, head: Name, tail: Name): PairOutcome
  {
    if head !in pose then Skipped(HeadMissing)
    else if pose[head].useConnect then Skipped(HeadConnected)
    else if !pose[head].useLocalLocation then Skipped(HeadNotLocalLocation)
    else if tail !in pose then Skipped(TailMissing)
    else if pose[tail].useConnect then Skipped(TailConnected)
    else if !pose[tail].useLocalLocation then Skipped(TailNotLocalLocation)
    else if head !in Ancestors(pose, tail) then Skipped(NotParented)
    else if pose[head].parent.None? then Raised
    else Updated
  }

  /** The guards let a pair through exactly when both bones are free, local-location bones and the tail lies strictly below a head that has a parent. */
  lemma PairAdmitted(pose: Pose, head: Name, tail: Name)
    requires WellFormed(pose)
    ensures PairGuards(pose, head, tail) == Updated <==>
      && head in pose && tail in pose
      && !pose[head].useConnect && pose[head].useLocalLocation
      && !pose[tail].useConnect && pose[tail].useLocalLocation
      && IsStrictAncestor(pose, head, tail)
      && pose[head].parent.Some?
  {
    if tail in pose {
      AncestorsAreIteratedParents(pose, tail, head);
    }
  }

  /** A joint paired with itself never passes: the walk starts at the tail's parent. */
  lemma SelfPairRejected(pose: Pose, b: Name)
    requires WellFormed(pose)
    ensures PairGuards(pose, b, b) != Updated
    ensures b in pose && !pose[b].useConnect && pose[b].useLocalLocation ==> PairGuards(pose, b, b) == Skipped(NotParented)
  {
    if b in pose {
      NotOwnAncestor(pose, b);
    }
  }

  /** The guards only read bones, parent links and flags, so a rotation write never changes them. */
  lemma GuardsRespectStructure(s: Pose, t: Pose, head: Name, tail: Name)
    requires SameStructure(s, t)
    ensures PairGuards(t, head, tail) == PairGuards(s, head, tail)
  {
    AncestorsAgree(s, t);
  }

  /** `current_tail`: the tail's position in world space, read from its pose matrix. */
  function CurrentTail(matrixWorld: Mat4, pose: Pose, tail: Name): Vec3
    requires tail in pose
  {
    WorldTranslation(matrixWorld, pose[tail].matrix)
  }

  /** The `prev_tail` fed to the integrator: the tail just read on frame 1, otherwise the stored one. */
  function PrevTailUsed(frameCurrent: int, current: Vec3, st: StateValue): (r: Vec3)
    ensures frameCurrent == 1 ==> r == current
    ensures frameCurrent != 1 ==> r == st.prevTail
  {
    var st1 := if frameCurrent == 1 then StateValue(current, true) else st;
    st1.prevTail
  }

  datatype PairResult = PairResult(outcome: PairOutcome, pose: Pose, state: StateValue)

  /**
    What one call of `update_spring_joint_pair` does to the pose and to the
    head joint's state.
  */
  function PairUpdate(deltaTime: real, frameCurrent: int, matrixWorld: Mat4, pose: Pose,
                      head: Name, params: JointParams, tail: Name, st: StateValue,
                      step: Integrator): (r: PairResult)
    requires ParentsInPose(pose)
    ensures (forall n :: n in pose ==> n in r.pose) && ParentsInPose(r.pose)
  {
    var outcome := PairGuards(pose, head, tail);
    if !outcome.Updated? then PairResult(outcome, pose, st)
    else
      var headBone := pose[head];
      var current := CurrentTail(matrixWorld, pose, tail);
      var st1 := if frameCurrent == 1 then StateValue(current, true) else st;
      var out := step(StepInput(deltaTime, params, matrixWorld, headBone, pose[headBone.parent.value],
                                pose[tail], current, st1.prevTail));
      var mode := if headBone.rotationMode != QUATERNION then QUATERNION else headBone.rotationMode;
      var pose' := pose[head := headBone.(rotationMode := mode, rotationQuaternion := out.rotation)];
      assert SameStructure(pose, pose');
      PairResult(Updated, pose', StateValue(current, st1.initialized))
  }

  /** The contract of one pair's update: the guards decide, and only the head bone and its state are written. */
  lemma PairUpdateSpec(deltaTime: real, frameCurrent: int, matrixWorld: Mat4, pose: Pose,
                       head: Name, params: JointParams, tail: Name, st: StateValue, step: Integrator)
    requires ParentsInPose(pose)
    ensures var r := PairUpdate(deltaTime, frameCurrent, matrixWorld, pose, head, params, tail, st, step);
      SameStructure(pose, r.pose) && ParentsInPose(r.pose)
    ensures var r := PairUpdate(deltaTime, frameCurrent, matrixWorld, pose, head, params, tail, st, step);
      r.outcome == PairGuards(pose, head, tail)
    // a failing guard, a missing parent: nothing is written
    ensures var r := PairUpdate(deltaTime, frameCurrent, matrixWorld, pose, head, params, tail, st, step);
      !r.outcome.Updated? ==> r.pose == pose && r.state == st
    ensures var r := PairUpdate(deltaTime, frameCurrent, matrixWorld, pose, head, params, tail, st, step);
      r.outcome.Updated? ==>
        && head in pose && tail in pose && pose[head].parent.Some?
        // the stored prev_tail is the tail position read at the start of the call
        && r.state.prevTail == CurrentTail(matrixWorld, pose, tail)
        && r.state.initialized == (st.initialized || frameCurrent == 1)
        // the head is switched to quaternion mode and given the integrator's rotation
        && r.pose[head].rotationMode == QUATERNION
        && r.pose[head].rotationQuaternion == step(StepInput(
             deltaTime, params, matrixWorld, pose[head], pose[pose[head].parent.value], pose[tail],
             CurrentTail(matrixWorld, pose, tail),
             PrevTailUsed(frameCurrent, CurrentTail(matrixWorld, pose, tail), st))).rotation
        && r.pose[head].matrix == pose[head].matrix
        // no other bone changes
        && forall n :: n in pose && n != head ==> r.pose[n] == pose[n]
  {
  }

  /** On frame 1 the stored history is discarded: the result does not depend on the old `prev_tail`. */
  lemma FrameOneResetsHistory(deltaTime: real, matrixWorld: Mat4, pose: Pose, head: Name,
                              params: JointParams, tail: Name, st1: StateValue, st2: StateValue,
                              step: Integrator)
    requires ParentsInPose(pose)
    ensures var r1 := PairUpdate(deltaTime, 1, matrixWorld, pose, head, params, tail, st1, step);
            var r2 := PairUpdate(deltaTime, 1, matrixWorld, pose, head, params, tail, st2, step);
            r1.outcome.Updated? ==> r1.pose == r2.pose && r1.state == r2.state && r1.state.initialized
  {
  }

  /** The stored state never depends on the integrator: `prev_tail` keeps the position read, not `next_tail`. */
  lemma StoredStateIgnoresIntegrator(deltaTime: real, frameCurrent: int, matrixWorld: Mat4, pose: Pose,
                                     head: Name, params: JointParams, tail: Name, st: StateValue,
                                     step1: Integrator, step2: Integrator)
    requires ParentsInPose(pose)
    ensures PairUpdate(deltaTime, frameCurrent, matrixWorld, pose, head, params, tail, st, step1).state
         == PairUpdate(deltaTime, frameCurrent, matrixWorld, pose, head, params, tail, st, step2).state
  {
  }

  /** The `while searching_tail_parent` walk: does `head` occur among the tail's strict ancestors? */
  method HeadTailParented(pose: Pose, head: Name, tail: Name) returns (parented: bool)
    requires WellFormed(pose) && tail in pose
    ensures parented <==> head in Ancestors(pose, tail)
  {
    parented := false;
    var searching := pose[tail].parent;
    ghost var fuel: nat := |pose|;
    while searching.Some?
      invariant RootedWithin(pose, searching, fuel)
      invariant !parented
      invariant head in Ancestors(pose, tail) <==> head in AncestorChain(pose, searching, fuel)
      decreases fuel
    {
      if searching.value == head {
        parented := true;
        break;
      }
      searching := pose[searching.value].parent;
      fuel := fuel - 1;
    }
  }

  /** The guard section of `update_spring_joint_pair`, up to the first use of the head's parent. */
  method CheckPairGuards(pose: Pose, headName: Name, tailName: Name) returns (outcome: PairOutcome)
    requires WellFormed(pose)
    ensures outcome == PairGuards(pose, headName, tailName)
  {
    if headName !in pose {
      return Skipped(HeadMissing);
    }
    var headBone := pose[headName];
    if headBone.useConnect {
      return Skipped(HeadConnected);
    }
    if !headBone.useLocalLocation {
      return Skipped(HeadNotLocalLocation);
    }
    if tailName !in pose {
      return Skipped(TailMissing);
    }
    var tailBone := pose[tailName];
    if tailBone.useConnect {
      return Skipped(TailConnected);
    }
    if !tailBone.useLocalLocation {
      return Skipped(TailNotLocalLocation);
    }
    var parented := HeadTailParented(pose, headName, tailName);
    if !parented {
      return Skipped(NotParented);
    }
    // the rest matrices dereference `head_pose_bone.parent` unchecked
    if headBone.parent.None? {
      return Raised;
    }
    return Updated;
  }

  /**
    `update_spring_joint_pair`: guards, then the state and rotation writes.
    The head joint is given by its value and by its place `headId`, under
    which the extension keeps its state.
  */
  method UpdateSpringJointPair(deltaTime: real, frameCurrent: int, obj: BlenderObject,
                               headId: JointId, headJoint: Joint, tailJoint: Joint, step: Integrator)
    returns (outcome: PairOutcome)
    requires WellFormed(obj.pose)
    modifies obj, obj.ext
    ensures var r := PairUpdate(deltaTime, frameCurrent, obj.matrixWorld, old(obj.pose), headJoint.node,
                                headJoint.params, tailJoint.node, old(obj.ext.StateOf(headId)), step);
            && outcome == r.outcome && obj.pose == r.pose
            && obj.ext.states == if r.outcome.Updated? then old(obj.ext.states)[headId := r.state]
                                 else old(obj.ext.states)
    ensures WellFormed(obj.pose)
  {
    var headName := headJoint.node;
    var tailName := tailJoint.node;
    outcome := CheckPairGuards(obj.pose, headName, tailName);
    if !outcome.Updated? {
      return;
    }
    var headBone := obj.pose[headName];
    var tailBone := obj.pose[tailName];
    var headParent := obj.pose[headBone.parent.value];
    ghost var pose0 := obj.pose;
    ghost var states0 := obj.ext.states;
    ghost var initialized := obj.ext.StateOf(headId).initialized || frameCurrent == 1;

    var currentTail := WorldTranslation(obj.matrixWorld, tailBone.matrix);
    if frameCurrent == 1 {
      obj.ext.states := obj.ext.states[headId := StateValue(currentTail, true)];
    }
    var prevTail := obj.ext.StateOf(headId).prevTail;

    var out := step(StepInput(deltaTime, headJoint.params, obj.matrixWorld, headBone, headParent,
                              tailBone, currentTail, prevTail));

    ghost var mode := if headBone.rotationMode != QUATERNION then QUATERNION else headBone.rotationMode;
    if obj.pose[headName].rotationMode != QUATERNION {
      obj.pose := obj.pose[headName := obj.pose[headName].(rotationMode := QUATERNION)];
    }
    assert obj.pose[headName] == headBone.(rotationMode := mode);
    obj.pose := obj.pose[headName := obj.pose[headName].(rotationQuaternion := out.rotation)];
    assert obj.pose == pose0[headName := headBone.(rotationMode := mode, rotationQuaternion := out.rotation)];
    assert obj.ext.StateOf(headId).initialized == initialized;
    obj.ext.states := obj.ext.states[headId := obj.ext.StateOf(headId).(prevTail := currentTail)];
    assert obj.ext.states == states0[headId := StateValue(currentTail, initialized)];
    BoneRewriteKeepsWellFormed(pose0, headName, headBone.(rotationMode := mode, rotationQuaternion := out.rotation));
  }

  // ---------------------------------------------------------------------
  // The outcomes a pass is expected to produce
  // ---------------------------------------------------------------------

  /**
    The outcomes of visiting `pairs` in order: each pair's guard outcome,
    stopping after the first `Raised`, whose exception ends the pass.
  */
  function ExpectedTrace(pose: Pose, pairs: seq<(Joint, Joint)>): seq<PairOutcome>
    decreases |pairs|
  {
    if pairs == [] then []
    else
      var o := PairGuards(pose, pairs[0].0.node, pairs[0].1.node);
      if o.Raised? then [o] else [o] + ExpectedTrace(pose, pairs[1..])
  }

  /**
    The trace lists the guard outcome of each visited pair in order; every
    pair is visited unless an earlier one raised, and only the last visited
    pair can have raised.
  */
  lemma {:induction false} ExpectedTraceShape(pose: Pose, pairs: seq<(Joint, Joint)>)
    ensures var r := ExpectedTrace(pose, pairs);
      && |r| <= |pairs|
      && (forall i :: 0 <= i < |r| ==> r[i] == PairGuards(pose, pairs[i].0.node, pairs[i].1.node))
      && (forall i :: 0 <= i < |r| - 1 ==> !r[i].Raised?)
      && (|r| < |pairs| ==> Aborted(r))
    decreases |pairs|
  {
    if pairs != [] {
      ExpectedTraceShape(pose, pairs[1..]);
    }
  }

  lemma {:induction false} ExpectedTraceRespectsStructure(s: Pose, t: Pose, pairs: seq<(Joint, Joint)>)
    requires SameStructure(s, t)
    ensures ExpectedTrace(t, pairs) == ExpectedTrace(s, pairs)
    decreases |pairs|
  {
    if pairs != [] {
      GuardsRespectStructure(s, t, pairs[0].0.node, pairs[0].1.node);
      ExpectedTraceRespectsStructure(s, t, pairs[1..]);
    }
  }

  /** The trace ended in an exception. */
  predicate Aborted(trace: seq<PairOutcome>)
  {
    |trace| > 0 && trace[|trace| - 1].Raised?
  }

  /** A pair of `a` raised: visiting `a` then `b` stops within `a`. */
  lemma {:induction false} ExpectedTraceAppendAborted(pose: Pose, a: seq<(Joint, Joint)>, b: seq<(Joint, Joint)>)
    requires Aborted(ExpectedTrace(pose, a))
    ensures ExpectedTrace(pose, a + b) == ExpectedTrace(pose, a)
    decreases |a|
  {
    assert (a + b)[0] == a[0];
    assert (a + b)[1..] == a[1..] + b;
    if !PairGuards(pose, a[0].0.node, a[0].1.node).Raised? {
      ExpectedTraceAppendAborted(pose, a[1..], b);
    }
  }

  /** No pair of `a` raised: visiting `a` then `b` is all of `a`, then `b`. */
  lemma {:induction false} ExpectedTraceAppendComplete(pose: Pose, a: seq<(Joint, Joint)>, b: seq<(Joint, Joint)>)
    requires !Aborted(ExpectedTrace(pose, a))
    ensures ExpectedTrace(pose, a + b) == ExpectedTrace(pose, a) + ExpectedTrace(pose, b)
    decreases |a|
  {
    if a == [] {
      assert a + b == b;
    } else {
      assert (a + b)[0] == a[0];
      assert (a + b)[1..] == a[1..] + b;
      var o := PairGuards(pose, a[0].0.node, a[0].1.node);
      assert ExpectedTrace(pose, a) == [o] + ExpectedTrace(pose, a[1..]);
      ExpectedTraceAppendComplete(pose, a[1..], b);
    }
  }

  /** The trace from pair `pi` on: that pair's guard outcome, then the later pairs' unless it raised. */
  lemma PairTraceStep(pose: Pose, pairs: seq<(Joint, Joint)>, pi: int)
    requires 0 <= pi < |pairs|
    ensures var o := PairGuards(pose, pairs[pi].0.node, pairs[pi].1.node);
      ExpectedTrace(pose, pairs[pi..]) ==
        if o.Raised? then [o] else [o] + ExpectedTrace(pose, pairs[pi + 1..])
  {
    assert pairs[pi..][0] == pairs[pi];
    assert pairs[pi..][1..] == pairs[pi + 1..];
  }

  /** The pairs from spring `si` on are those of spring `si`, then those of the springs after it. */
  lemma AllPairsFrom(springs: seq<Spring>, si: int)
    requires 0 <= si < |springs|
    ensures AllPairs(springs[si..]) == Pairs(springs[si].joints) + AllPairs(springs[si + 1..])
  {
    assert springs[si..][0] == springs[si];
    assert springs[si..][1..] == springs[si + 1..];
  }

  /** The trace from spring `si` on: that spring's trace, then the later springs' unless it raised. */
  lemma SpringTraceStep(pose: Pose, springs: seq<Spring>, si: int)
    requires 0 <= si < |springs|
    ensures var strace := ExpectedTrace(pose, Pairs(springs[si].joints));
      ExpectedTrace(pose, AllPairs(springs[si..])) ==
        if Aborted(strace) then strace else strace + ExpectedTrace(pose, AllPairs(springs[si + 1..]))
  {
    var pairs := Pairs(springs[si].joints);
    var rest := AllPairs(springs[si + 1..]);
    AllPairsFrom(springs, si);
    if Aborted(ExpectedTrace(pose, pairs)) {
      ExpectedTraceAppendAborted(pose, pairs, rest);
    } else {
      ExpectedTraceAppendComplete(pose, pairs, rest);
    }
  }

  lemma AppendAssociative<T>(a: seq<T>, b: seq<T>, c: seq<T>)
    ensures a + (b + c) == (a + b) + c
  {
  }

  // ---------------------------------------------------------------------
  // The passes over springs and objects, as folds over poses and states
  // ---------------------------------------------------------------------

  /** The outcomes of a pass and the pose and joint states it leaves. */
  datatype PassResult = PassResult(trace: seq<PairOutcome>, pose: Pose, states: map<JointId, StateValue>)

  /**
    The inner loop of `update_object` from pair `pi` of spring `si` on:
    each pair is updated in turn, its head joint's state read and written
    under `JointId(si, pi)`, until one raises.
  */
  function PairsFrom(deltaTime: real, frameCurrent: int, matrixWorld: Mat4, si: int,
                     pairs: seq<(Joint, Joint)>, pi: nat, pose: Pose,
                     states: map<JointId, StateValue>, step: Integrator): (r: PassResult)
    requires ParentsInPose(pose) && pi <= |pairs|
    ensures (forall n :: n in pose ==> n in r.pose) && ParentsInPose(r.pose)
    ensures |r.trace| <= |pairs| - pi
    decreases |pairs| - pi
  {
    if pi == |pairs| then PassResult([], pose, states)
    else
      var id := JointId(si, pi);
      var p := PairUpdate(deltaTime, frameCurrent, matrixWorld, pose, pairs[pi].0.node, pairs[pi].0.params,
                          pairs[pi].1.node, StateIn(states, id), step);
      var next := if p.outcome.Updated? then states[id := p.state] else states;
      if p.outcome.Raised? then PassResult([Raised], p.pose, next)
      else
        var rest := PairsFrom(deltaTime, frameCurrent, matrixWorld, si, pairs, pi + 1, p.pose, next, step);
        PassResult([p.outcome] + rest.trace, rest.pose, rest.states)
  }

  /** The loops of `update_object` from spring `si` on: each spring's pairs in turn, until one raises. */
  function SpringsFrom(deltaTime: real, frameCurrent: int, matrixWorld: Mat4, springs: seq<Spring>,
                       si: nat, pose: Pose, states: map<JointId, StateValue>, step: Integrator): (r: PassResult)
    requires ParentsInPose(pose) && si <= |springs|
    ensures (forall n :: n in pose ==> n in r.pose) && ParentsInPose(r.pose)
    decreases |springs| - si
  {
    if si == |springs| then PassResult([], pose, states)
    else
      var s := PairsFrom(deltaTime, frameCurrent, matrixWorld, si, Pairs(springs[si].joints), 0, pose, states, step);
      if Aborted(s.trace) then s
      else
        var rest := SpringsFrom(deltaTime, frameCurrent, matrixWorld, springs, si + 1, s.pose, s.states, step);
        PassResult(s.trace + rest.trace, rest.pose, rest.states)
  }

  /**
    `update_object` on `obj` whose pose is `pose` and whose extension holds
    `states`: the object filters, then every spring.  Only the constant
    parts of `obj` are read.
  */
  function ObjectPass(deltaTime: real, frameCurrent: int, obj: BlenderObject, pose: Pose,
                      states: map<JointId, StateValue>, step: Integrator): (r: PassResult)
    requires ParentsInPose(pose)
    ensures (forall n :: n in pose ==> n in r.pose) && ParentsInPose(r.pose)
  {
    if obj.objectType != ARMATURE then PassResult([], pose, states)
    else if !obj.ext.isVrm1 then PassResult([], pose, states)
    else SpringsFrom(deltaTime, frameCurrent, obj.matrixWorld, obj.ext.springs, 0, pose, states, step)
  }

  /** An object's pass keeps its pose's hierarchy and flags. */
  lemma ObjectPassStructure(deltaTime: real, frameCurrent: int, obj: BlenderObject, pose: Pose,
                            states: map<JointId, StateValue>, step: Integrator)
    requires ParentsInPose(pose)
    ensures SameStructure(pose, ObjectPass(deltaTime, frameCurrent, obj, pose, states, step).pose)
  {
    if obj.objectType == ARMATURE && obj.ext.isVrm1 {
      SpringsFromStructure(deltaTime, frameCurrent, obj.matrixWorld, obj.ext.springs, 0, pose, states, step);
    }
  }

  /** The pass from pair `pi` on updated pair `k`. */
  predicate UpdatedAt(trace: seq<PairOutcome>, pi: int, k: int)
  {
    pi <= k < pi + |trace| && trace[k - pi] == Updated
  }

  /** Joint `id` has the same entry in both tables, or none in either. */
  predicate SameEntry(m: map<JointId, StateValue>, n: map<JointId, StateValue>, id: JointId)
  {
    (id in m <==> id in n) && (id in m ==> m[id] == n[id])
  }

  /** A spring's pass rewrites rotations only: the hierarchy and the flags stay as they were. */
  lemma {:induction false} PairsFromStructure(deltaTime: real, frameCurrent: int, matrixWorld: Mat4, si: int,
                                              pairs: seq<(Joint, Joint)>, pi: nat, pose: Pose,
                                              states: map<JointId, StateValue>, step: Integrator)
    requires ParentsInPose(pose) && pi <= |pairs|
    ensures SameStructure(pose, PairsFrom(deltaTime, frameCurrent, matrixWorld, si, pairs, pi, pose, states, step).pose)
    decreases |pairs| - pi
  {
    if pi < |pairs| {
      var id := JointId(si, pi);
      var p := PairUpdate(deltaTime, frameCurrent, matrixWorld, pose, pairs[pi].0.node, pairs[pi].0.params,
                          pairs[pi].1.node, StateIn(states, id), step);
      var next := if p.outcome.Updated? then states[id := p.state] else states;
      if !p.outcome.Raised? {
        var rest := PairsFrom(deltaTime, frameCurrent, matrixWorld, si, pairs, pi + 1, p.pose, next, step);
        PairsFromStructure(deltaTime, frameCurrent, matrixWorld, si, pairs, pi + 1, p.pose, next, step);
        SameStructureTransitive(pose, p.pose, rest.pose);
      }
    }
  }

  /** The fold's outcomes are exactly the guard outcomes of the pairs, up to the first that raised. */
  lemma {:induction false} PairsFromTrace(deltaTime: real, frameCurrent: int, matrixWorld: Mat4, si: int,
                                          pairs: seq<(Joint, Joint)>, pi: nat, pose: Pose,
                                          states: map<JointId, StateValue>, step: Integrator)
    requires ParentsInPose(pose) && pi <= |pairs|
    ensures PairsFrom(deltaTime, frameCurrent, matrixWorld, si, pairs, pi, pose, states, step).trace
         == ExpectedTrace(pose, pairs[pi..])
    decreases |pairs| - pi
  {
    if pi == |pairs| {
      assert pairs[pi..] == [];
    } else {
      var id := JointId(si, pi);
      var p := PairUpdate(deltaTime, frameCurrent, matrixWorld, pose, pairs[pi].0.node, pairs[pi].0.params,
                          pairs[pi].1.node, StateIn(states, id), step);
      var next := if p.outcome.Updated? then states[id := p.state] else states;
      PairTraceStep(pose, pairs, pi);
      if !p.outcome.Raised? {
        PairsFromTrace(deltaTime, frameCurrent, matrixWorld, si, pairs, pi + 1, p.pose, next, step);
        ExpectedTraceRespectsStructure(pose, p.pose, pairs[pi + 1..]);
      }
    }
  }

  /** A spring's pass keeps every bone's matrix and never takes a bone out of quaternion mode. */
  lemma {:induction false} PairsFromKeeps(deltaTime: real, frameCurrent: int, matrixWorld: Mat4, si: int,
                                          pairs: seq<(Joint, Joint)>, pi: nat, pose: Pose,
                                          states: map<JointId, StateValue>, step: Integrator)
    requires ParentsInPose(pose) && pi <= |pairs|
    ensures var r := PairsFrom(deltaTime, frameCurrent, matrixWorld, si, pairs, pi, pose, states, step);
      && (forall n :: n in pose ==> r.pose[n].matrix == pose[n].matrix)
      && (forall n :: n in pose && pose[n].rotationMode == QUATERNION ==> r.pose[n].rotationMode == QUATERNION)
    decreases |pairs| - pi
  {
    if pi < |pairs| {
      var id := JointId(si, pi);
      var p := PairUpdate(deltaTime, frameCurrent, matrixWorld, pose, pairs[pi].0.node, pairs[pi].0.params,
                          pairs[pi].1.node, StateIn(states, id), step);
      var next := if p.outcome.Updated? then states[id := p.state] else states;
      if !p.outcome.Raised? {
        var rest := PairsFrom(deltaTime, frameCurrent, matrixWorld, si, pairs, pi + 1, p.pose, next, step);
        PairsFromKeeps(deltaTime, frameCurrent, matrixWorld, si, pairs, pi + 1, p.pose, next, step);
        forall n | n in pose
          ensures rest.pose[n].matrix == pose[n].matrix
          ensures pose[n].rotationMode == QUATERNION ==> rest.pose[n].rotationMode == QUATERNION
        {
          assert n in p.pose && p.pose[n].matrix == pose[n].matrix;
          assert pose[n].rotationMode == QUATERNION ==> p.pose[n].rotationMode == QUATERNION;
        }
      }
    }
  }

  /** Pair `k` is updated by the pass from `pi` on exactly when it is by the pass from `pi + 1` on, after pair `pi`. */
  lemma UpdatedAtStep(o: PairOutcome, rest: seq<PairOutcome>, pi: int)
    ensures forall k :: UpdatedAt([o] + rest, pi, k) <==> (k == pi && o == Updated) || UpdatedAt(rest, pi + 1, k)
  {
    forall k
      ensures UpdatedAt([o] + rest, pi, k) <==> (k == pi && o == Updated) || UpdatedAt(rest, pi + 1, k)
    {
      if pi < k < pi + 1 + |rest| {
        assert ([o] + rest)[k - pi] == rest[k - (pi + 1)];
      }
    }
  }

  /** A spring's pass leaves every bone that heads no pair it updated as it was. */
  lemma {:induction false} PairsFromUntouched(deltaTime: real, frameCurrent: int, matrixWorld: Mat4, si: int,
                                              pairs: seq<(Joint, Joint)>, pi: nat, pose: Pose,
                                              states: map<JointId, StateValue>, step: Integrator)
    requires ParentsInPose(pose) && pi <= |pairs|
    ensures var r := PairsFrom(deltaTime, frameCurrent, matrixWorld, si, pairs, pi, pose, states, step);
      forall n :: n in pose && (forall k :: UpdatedAt(r.trace, pi, k) ==> pairs[k].0.node != n) ==>
        r.pose[n] == pose[n]
    decreases |pairs| - pi
  {
    PairsFromKeeps(deltaTime, frameCurrent, matrixWorld, si, pairs, pi, pose, states, step);
    if pi < |pairs| {
      var id := JointId(si, pi);
      var p := PairUpdate(deltaTime, frameCurrent, matrixWorld, pose, pairs[pi].0.node, pairs[pi].0.params,
                          pairs[pi].1.node, StateIn(states, id), step);
      var next := if p.outcome.Updated? then states[id := p.state] else states;
      if !p.outcome.Raised? {
        var rest := PairsFrom(deltaTime, frameCurrent, matrixWorld, si, pairs, pi + 1, p.pose, next, step);
        var r := PairsFrom(deltaTime, frameCurrent, matrixWorld, si, pairs, pi, pose, states, step);
        PairsFromUntouched(deltaTime, frameCurrent, matrixWorld, si, pairs, pi + 1, p.pose, next, step);
        UpdatedAtStep(p.outcome, rest.trace, pi);
        forall n | n in pose && (forall k :: UpdatedAt(r.trace, pi, k) ==> pairs[k].0.node != n)
          ensures r.pose[n] == pose[n]
        {
          if p.outcome.Updated? {
            assert UpdatedAt(r.trace, pi, pi);
          }
          assert n in p.pose && p.pose[n] == pose[n];
        }
      }
    }
  }

  /** A spring's pass leaves the state of every joint it did not update as it was. */
  lemma {:induction false} PairsFromStates(deltaTime: real, frameCurrent: int, matrixWorld: Mat4, si: int,
                                           pairs: seq<(Joint, Joint)>, pi: nat, pose: Pose,
                                           states: map<JointId, StateValue>, step: Integrator)
    requires ParentsInPose(pose) && pi <= |pairs|
    ensures var r := PairsFrom(deltaTime, frameCurrent, matrixWorld, si, pairs, pi, pose, states, step);
      forall id: JointId :: !(id.spring == si && UpdatedAt(r.trace, pi, id.joint)) ==> SameEntry(r.states, states, id)
    decreases |pairs| - pi
  {
    if pi < |pairs| {
      var id := JointId(si, pi);
      var p := PairUpdate(deltaTime, frameCurrent, matrixWorld, pose, pairs[pi].0.node, pairs[pi].0.params,
                          pairs[pi].1.node, StateIn(states, id), step);
      var next := if p.outcome.Updated? then states[id := p.state] else states;
      if !p.outcome.Raised? {
        var rest := PairsFrom(deltaTime, frameCurrent, matrixWorld, si, pairs, pi + 1, p.pose, next, step);
        var r := PairsFrom(deltaTime, frameCurrent, matrixWorld, si, pairs, pi, pose, states, step);
        PairsFromStates(deltaTime, frameCurrent, matrixWorld, si, pairs, pi + 1, p.pose, next, step);
        UpdatedAtStep(p.outcome, rest.trace, pi);
        forall j: JointId | !(j.spring == si && UpdatedAt(r.trace, pi, j.joint))
          ensures SameEntry(r.states, states, j)
        {
          assert SameEntry(rest.states, next, j);
          if j == id {
            assert !p.outcome.Updated?;
          }
        }
      }
    }
  }

  /** Every bone that heads a pair a spring's pass updated is left in quaternion mode. */
  lemma {:induction false} PairsFromHeadMode(deltaTime: real, frameCurrent: int, matrixWorld: Mat4, si: int,
                                             pairs: seq<(Joint, Joint)>, pi: nat, pose: Pose,
                                             states: map<JointId, StateValue>, step: Integrator)
    requires ParentsInPose(pose) && pi <= |pairs|
    ensures var r := PairsFrom(deltaTime, frameCurrent, matrixWorld, si, pairs, pi, pose, states, step);
      forall k :: UpdatedAt(r.trace, pi, k) ==>
        && pairs[k].0.node in r.pose && pairs[k].1.node in pose
        && r.pose[pairs[k].0.node].rotationMode == QUATERNION
    decreases |pairs| - pi
  {
    if pi < |pairs| {
      var id := JointId(si, pi);
      var p := PairUpdate(deltaTime, frameCurrent, matrixWorld, pose, pairs[pi].0.node, pairs[pi].0.params,
                          pairs[pi].1.node, StateIn(states, id), step);
      var next := if p.outcome.Updated? then states[id := p.state] else states;
      if !p.outcome.Raised? {
        var r := PairsFrom(deltaTime, frameCurrent, matrixWorld, si, pairs, pi, pose, states, step);
        var rest := PairsFrom(deltaTime, frameCurrent, matrixWorld, si, pairs, pi + 1, p.pose, next, step);
        PairsFromKeeps(deltaTime, frameCurrent, matrixWorld, si, pairs, pi + 1, p.pose, next, step);
        PairsFromHeadMode(deltaTime, frameCurrent, matrixWorld, si, pairs, pi + 1, p.pose, next, step);
        UpdatedAtStep(p.outcome, rest.trace, pi);
        if p.outcome.Updated? {
          assert pairs[pi].0.node in p.pose && p.pose[pairs[pi].0.node].rotationMode == QUATERNION;
        }
      }
    }
  }

  /** When the first pair of a spring's pass is updated, its head joint ends with the tail position read before it. */
  /** The pairs from `pi` on leave the state of an earlier joint of the same spring alone. */
  lemma {:induction false} PairsFromKeepsEarlier(deltaTime: real, frameCurrent: int, matrixWorld: Mat4, si: int,
                                                 pairs: seq<(Joint, Joint)>, pi: nat, pose: Pose,
                                                 states: map<JointId, StateValue>, step: Integrator, j: nat)
    requires ParentsInPose(pose) && pi <= |pairs| && j < pi
    ensures SameEntry(PairsFrom(deltaTime, frameCurrent, matrixWorld, si, pairs, pi, pose, states, step).states,
                      states, JointId(si, j))
    decreases |pairs| - pi
  {
    if pi < |pairs| {
      var id := JointId(si, pi);
      var p := PairUpdate(deltaTime, frameCurrent, matrixWorld, pose, pairs[pi].0.node, pairs[pi].0.params,
                          pairs[pi].1.node, StateIn(states, id), step);
      var next := if p.outcome.Updated? then states[id := p.state] else states;
      if !p.outcome.Raised? {
        PairsFromKeepsEarlier(deltaTime, frameCurrent, matrixWorld, si, pairs, pi + 1, p.pose, next, step, j);
      }
    }
  }

  /** The first pair, when updated, leaves its head joint with the tail position it read. */
  lemma FirstJointState(deltaTime: real, frameCurrent: int, matrixWorld: Mat4, si: int,
                        pairs: seq<(Joint, Joint)>, pi: nat, pose: Pose,
                        states: map<JointId, StateValue>, step: Integrator)
    requires ParentsInPose(pose) && pi < |pairs|
    ensures var r := PairsFrom(deltaTime, frameCurrent, matrixWorld, si, pairs, pi, pose, states, step);
      UpdatedAt(r.trace, pi, pi) ==>
        && pairs[pi].1.node in pose
        && JointId(si, pi) in r.states
        && r.states[JointId(si, pi)] == StateValue(
             CurrentTail(matrixWorld, pose, pairs[pi].1.node),
             StateIn(states, JointId(si, pi)).initialized || frameCurrent == 1)
  {
    var id := JointId(si, pi);
    var p := PairUpdate(deltaTime, frameCurrent, matrixWorld, pose, pairs[pi].0.node, pairs[pi].0.params,
                        pairs[pi].1.node, StateIn(states, id), step);
    if p.outcome.Updated? {
      var next := states[id := p.state];
      var rest := PairsFrom(deltaTime, frameCurrent, matrixWorld, si, pairs, pi + 1, p.pose, next, step);
      PairsFromKeepsEarlier(deltaTime, frameCurrent, matrixWorld, si, pairs, pi + 1, p.pose, next, step, pi);
    }
  }

  /** One pair's update moves no bone's matrix: the positions read later in the pass are the ones read before. */
  lemma PairUpdateKeepsMatrices(deltaTime: real, frameCurrent: int, matrixWorld: Mat4, pose: Pose,
                                head: Name, params: JointParams, tail: Name, st: StateValue, step: Integrator)
    requires ParentsInPose(pose)
    ensures var r := PairUpdate(deltaTime, frameCurrent, matrixWorld, pose, head, params, tail, st, step);
            forall n :: n in r.pose ==> n in pose && r.pose[n].matrix == pose[n].matrix
  {
  }

  /**
    The inductive step of `PairsFromJointStates`, over plain values: the
    pairs after the first read the tails the first pair did not move, and
    the first pair's write leaves the other joints' states alone.
  */
  lemma LaterJointStates(frameCurrent: int, matrixWorld: Mat4, si: int, pairs: seq<(Joint, Joint)>, pi: nat,
                         pose: Pose, states: map<JointId, StateValue>, o: PairOutcome, pose1: Pose,
                         next: map<JointId, StateValue>, rest: PassResult, r: PassResult)
    requires r.trace == [o] + rest.trace && r.states == rest.states && pi + |r.trace| <= |pairs|
    requires forall n :: n in pose1 ==> n in pose && pose1[n].matrix == pose[n].matrix
    requires forall id: JointId :: id != JointId(si, pi) ==> StateIn(next, id) == StateIn(states, id)
    requires forall k :: UpdatedAt(rest.trace, pi + 1, k) ==>
        && pairs[k].1.node in pose1
        && JointId(si, k) in rest.states
        && rest.states[JointId(si, k)] == StateValue(
             CurrentTail(matrixWorld, pose1, pairs[k].1.node),
             StateIn(next, JointId(si, k)).initialized || frameCurrent == 1)
    ensures forall k :: UpdatedAt(r.trace, pi, k) && k != pi ==>
        && pairs[k].1.node in pose
        && JointId(si, k) in r.states
        && r.states[JointId(si, k)] == StateValue(
             CurrentTail(matrixWorld, pose, pairs[k].1.node),
             StateIn(states, JointId(si, k)).initialized || frameCurrent == 1)
  {
    forall k | UpdatedAt(r.trace, pi, k) && k != pi
      ensures pairs[k].1.node in pose && JointId(si, k) in r.states
      ensures r.states[JointId(si, k)] == StateValue(
         CurrentTail(matrixWorld, pose, pairs[k].1.node),
         StateIn(states, JointId(si, k)).initialized || frameCurrent == 1)
    {
      assert r.trace[k - pi] == rest.trace[k - (pi + 1)];
      assert UpdatedAt(rest.trace, pi + 1, k);
    }
  }

  /**
    The head joint of every pair a spring's pass updated ends with the
    tail position read before the pass, initialized on frame 1 and
    otherwise as before.
  */
  lemma {:induction false} PairsFromJointStates(deltaTime: real, frameCurrent: int, matrixWorld: Mat4, si: int,
                                                pairs: seq<(Joint, Joint)>, pi: nat, pose: Pose,
                                                states: map<JointId, StateValue>, step: Integrator)
    requires ParentsInPose(pose) && pi <= |pairs|
    ensures var r := PairsFrom(deltaTime, frameCurrent, matrixWorld, si, pairs, pi, pose, states, step);
      forall k :: UpdatedAt(r.trace, pi, k) ==>
        && pairs[k].1.node in pose
        && JointId(si, k) in r.states
        && r.states[JointId(si, k)] == StateValue(
             CurrentTail(matrixWorld, pose, pairs[k].1.node),
             StateIn(states, JointId(si, k)).initialized || frameCurrent == 1)
    decreases |pairs| - pi
  {
    if pi < |pairs| {
      FirstJointState(deltaTime, frameCurrent, matrixWorld, si, pairs, pi, pose, states, step);
      var id := JointId(si, pi);
      var p := PairUpdate(deltaTime, frameCurrent, matrixWorld, pose, pairs[pi].0.node, pairs[pi].0.params,
                          pairs[pi].1.node, StateIn(states, id), step);
      var next := if p.outcome.Updated? then states[id := p.state] else states;
      if !p.outcome.Raised? {
        var r := PairsFrom(deltaTime, frameCurrent, matrixWorld, si, pairs, pi, pose, states, step);
        var rest := PairsFrom(deltaTime, frameCurrent, matrixWorld, si, pairs, pi + 1, p.pose, next, step);
        PairsFromJointStates(deltaTime, frameCurrent, matrixWorld, si, pairs, pi + 1, p.pose, next, step);
        PairUpdateKeepsMatrices(deltaTime, frameCurrent, matrixWorld, pose, pairs[pi].0.node, pairs[pi].0.params,
                                pairs[pi].1.node, StateIn(states, id), step);
        forall id: JointId | id != JointId(si, pi)
          ensures StateIn(next, id) == StateIn(states, id)
        {
        }
        LaterJointStates(frameCurrent, matrixWorld, si, pairs, pi, pose, states, p.outcome, p.pose, next,
                         rest, r);
      }
    }
  }

  /** The passes over the springs from `si` on keep the hierarchy and the flags. */
  lemma {:induction false} SpringsFromStructure(deltaTime: real, frameCurrent: int, matrixWorld: Mat4,
                                                springs: seq<Spring>, si: nat, pose: Pose,
                                                states: map<JointId, StateValue>, step: Integrator)
    requires ParentsInPose(pose) && si <= |springs|
    ensures SameStructure(pose, SpringsFrom(deltaTime, frameCurrent, matrixWorld, springs, si, pose, states, step).pose)
    decreases |springs| - si
  {
    if si < |springs| {
      var s := PairsFrom(deltaTime, frameCurrent, matrixWorld, si, Pairs(springs[si].joints), 0, pose, states, step);
      PairsFromStructure(deltaTime, frameCurrent, matrixWorld, si, Pairs(springs[si].joints), 0, pose, states, step);
      if !Aborted(s.trace) {
        var rest := SpringsFrom(deltaTime, frameCurrent, matrixWorld, springs, si + 1, s.pose, s.states, step);
        SpringsFromStructure(deltaTime, frameCurrent, matrixWorld, springs, si + 1, s.pose, s.states, step);
        SameStructureTransitive(pose, s.pose, rest.pose);
      }
    }
  }

  /** The fold's outcomes are exactly the guard outcomes of all pairs of the springs from `si` on, up to the first that raised. */
  lemma {:induction false} SpringsFromTrace(deltaTime: real, frameCurrent: int, matrixWorld: Mat4, springs: seq<Spring>,
                                            si: nat, pose: Pose, states: map<JointId, StateValue>, step: Integrator)
    requires ParentsInPose(pose) && si <= |springs|
    ensures SpringsFrom(deltaTime, frameCurrent, matrixWorld, springs, si, pose, states, step).trace
         == ExpectedTrace(pose, AllPairs(springs[si..]))
    decreases |springs| - si
  {
    if si == |springs| {
      assert springs[si..] == [];
    } else {
      var pairs := Pairs(springs[si].joints);
      var s := PairsFrom(deltaTime, frameCurrent, matrixWorld, si, pairs, 0, pose, states, step);
      PairsFromTrace(deltaTime, frameCurrent, matrixWorld, si, pairs, 0, pose, states, step);
      assert pairs[0..] == pairs;
      SpringTraceStep(pose, springs, si);
      if !Aborted(s.trace) {
        SpringsFromTrace(deltaTime, frameCurrent, matrixWorld, springs, si + 1, s.pose, s.states, step);
        PairsFromStructure(deltaTime, frameCurrent, matrixWorld, si, pairs, 0, pose, states, step);
        ExpectedTraceRespectsStructure(pose, s.pose, AllPairs(springs[si + 1..]));
      }
    }
  }

  /**
    What the springs from `si` on leave alone: every bone's matrix, a bone
    already in quaternion mode, every bone that heads no pair of those
    springs, and the joints of the springs before `si`.
  */
  lemma {:induction false} SpringsFromFrame(deltaTime: real, frameCurrent: int, matrixWorld: Mat4, springs: seq<Spring>,
                                            si: nat, pose: Pose, states: map<JointId, StateValue>, step: Integrator)
    requires ParentsInPose(pose) && si <= |springs|
    ensures var r := SpringsFrom(deltaTime, frameCurrent, matrixWorld, springs, si, pose, states, step);
      && (forall n :: n in pose ==> r.pose[n].matrix == pose[n].matrix)
      && (forall n :: n in pose && pose[n].rotationMode == QUATERNION ==> r.pose[n].rotationMode == QUATERNION)
      && (forall n :: n in pose && (forall j, k :: si <= j < |springs| && 0 <= k < |Pairs(springs[j].joints)| ==>
                                      Pairs(springs[j].joints)[k].0.node != n) ==>
            r.pose[n] == pose[n])
      && (forall id: JointId :: id.spring < si ==> SameEntry(r.states, states, id))
    decreases |springs| - si
  {
    if si < |springs| {
      var pairs := Pairs(springs[si].joints);
      var s := PairsFrom(deltaTime, frameCurrent, matrixWorld, si, pairs, 0, pose, states, step);
      PairsFromKeeps(deltaTime, frameCurrent, matrixWorld, si, pairs, 0, pose, states, step);
      PairsFromUntouched(deltaTime, frameCurrent, matrixWorld, si, pairs, 0, pose, states, step);
      PairsFromStates(deltaTime, frameCurrent, matrixWorld, si, pairs, 0, pose, states, step);
      if !Aborted(s.trace) {
        SpringsFromFrame(deltaTime, frameCurrent, matrixWorld, springs, si + 1, s.pose, s.states, step);
      }
    }
  }

  /** `update_object`'s outcomes are the guard outcomes of the pairs it schedules, up to the first that raised. */
  lemma ObjectPassTrace(deltaTime: real, frameCurrent: int, obj: BlenderObject, pose: Pose,
                        states: map<JointId, StateValue>, step: Integrator)
    requires ParentsInPose(pose)
    ensures ObjectPass(deltaTime, frameCurrent, obj, pose, states, step).trace == ObjectTraceOf(obj, pose)
  {
    if obj.objectType == ARMATURE && obj.ext.isVrm1 {
      SpringsFromTrace(deltaTime, frameCurrent, obj.matrixWorld, obj.ext.springs, 0, pose, states, step);
      assert obj.ext.springs[0..] == obj.ext.springs;
    }
  }

  /** The outcomes one object's pass is expected to produce from `pose`. */
  function ObjectTraceOf(obj: BlenderObject, pose: Pose): seq<PairOutcome>
  {
    ExpectedTrace(pose, ScheduledPairs(obj.objectType, obj.ext.isVrm1, obj.ext.springs))
  }

  /**
    The inner loop of `update_object`: the pairs of spring `si`, until one
    raises.  The new pose and joint states are those of the fold.
  */
  method UpdateSpring(deltaTime: real, frameCurrent: int, obj: BlenderObject, si: int, step: Integrator)
    returns (trace: seq<PairOutcome>)
    requires WellFormed(obj.pose) && 0 <= si < |obj.ext.springs|
    modifies obj, obj.ext
    ensures var r := PairsFrom(deltaTime, frameCurrent, obj.matrixWorld, si, Pairs(obj.ext.springs[si].joints), 0,
                               old(obj.pose), old(obj.ext.states), step);
      trace == r.trace && obj.pose == r.pose && obj.ext.states == r.states
    ensures WellFormed(obj.pose) && SameStructure(old(obj.pose), obj.pose)
    ensures trace == ExpectedTrace(old(obj.pose), Pairs(obj.ext.springs[si].joints))
  {
    var pairs := Pairs(obj.ext.springs[si].joints);
    PairsFromTrace(deltaTime, frameCurrent, obj.matrixWorld, si, pairs, 0, obj.pose, obj.ext.states, step);
    PairsFromStructure(deltaTime, frameCurrent, obj.matrixWorld, si, pairs, 0, obj.pose, obj.ext.states, step);
    assert pairs[0..] == pairs;
    ghost var full := PairsFrom(deltaTime, frameCurrent, obj.matrixWorld, si, pairs, 0, obj.pose, obj.ext.states, step);
    trace := [];
    var pi := 0;
    while pi < |pairs|
      invariant 0 <= pi <= |pairs|
      invariant WellFormed(obj.pose)
      invariant var rest := PairsFrom(deltaTime, frameCurrent, obj.matrixWorld, si, pairs, pi,
                                      obj.pose, obj.ext.states, step);
        full.trace == trace + rest.trace && full.pose == rest.pose && full.states == rest.states
    {
      var outcome := UpdateSpringJointPair(deltaTime, frameCurrent, obj, JointId(si, pi), pairs[pi].0, pairs[pi].1, step);
      ghost var rest := PairsFrom(deltaTime, frameCurrent, obj.matrixWorld, si, pairs, pi + 1,
                                  obj.pose, obj.ext.states, step);
      AppendAssociative(trace, [outcome], rest.trace);
      trace := trace + [outcome];
      if outcome.Raised? {
        return;
      }
      pi := pi + 1;
    }
    assert trace + [] == trace;
  }

  /**
    The loops of `update_object`: every pair of every spring in order,
    until one raises.  The new pose and joint states are those of the fold.
  */
  method UpdateSprings(deltaTime: real, frameCurrent: int, obj: BlenderObject, step: Integrator)
    returns (trace: seq<PairOutcome>)
    requires WellFormed(obj.pose)
    modifies obj, obj.ext
    ensures var r := SpringsFrom(deltaTime, frameCurrent, obj.matrixWorld, obj.ext.springs, 0,
                                 old(obj.pose), old(obj.ext.states), step);
      trace == r.trace && obj.pose == r.pose && obj.ext.states == r.states
    ensures WellFormed(obj.pose) && SameStructure(old(obj.pose), obj.pose)
    ensures trace == ExpectedTrace(old(obj.pose), AllPairs(obj.ext.springs))
  {
    var springs := obj.ext.springs;
    SpringsFromTrace(deltaTime, frameCurrent, obj.matrixWorld, springs, 0, obj.pose, obj.ext.states, step);
    SpringsFromStructure(deltaTime, frameCurrent, obj.matrixWorld, springs, 0, obj.pose, obj.ext.states, step);
    assert springs[0..] == springs;
    ghost var full := SpringsFrom(deltaTime, frameCurrent, obj.matrixWorld, springs, 0, obj.pose, obj.ext.states, step);
    trace := [];
    var si := 0;
    while si < |springs|
      invariant 0 <= si <= |springs|
      invariant WellFormed(obj.pose)
      invariant var rest := SpringsFrom(deltaTime, frameCurrent, obj.matrixWorld, springs, si,
                                        obj.pose, obj.ext.states, step);
        full.trace == trace + rest.trace && full.pose == rest.pose && full.states == rest.states
    {
      var strace := UpdateSpring(deltaTime, frameCurrent, obj, si, step);
      ghost var rest := SpringsFrom(deltaTime, frameCurrent, obj.matrixWorld, springs, si + 1,
                                    obj.pose, obj.ext.states, step);
      AppendAssociative(trace, strace, rest.trace);
      trace := trace + strace;
      if Aborted(strace) {
        return;
      }
      si := si + 1;
    }
    assert trace + [] == trace;
  }

  /**
    `update_object`: the object filters, then every pair of every spring in
    order.  An object that is not a VRM 1.0 armature is left as it was.
  */
  method UpdateObject(deltaTime: real, frameCurrent: int, obj: BlenderObject, step: Integrator)
    returns (trace: seq<PairOutcome>)
    requires WellFormed(obj.pose)
    modifies obj, obj.ext
    ensures var r := ObjectPass(deltaTime, frameCurrent, obj, old(obj.pose), old(obj.ext.states), step);
      trace == r.trace && obj.pose == r.pose && obj.ext.states == r.states
    ensures WellFormed(obj.pose) && SameStructure(old(obj.pose), obj.pose)
    ensures trace == ObjectTraceOf(obj, old(obj.pose))
    ensures obj.objectType != ARMATURE || !obj.ext.isVrm1 ==>
      obj.pose == old(obj.pose) && obj.ext.states == old(obj.ext.states)
  {
    ObjectPassTrace(deltaTime, frameCurrent, obj, obj.pose, obj.ext.states, step);
    if obj.objectType != ARMATURE {
      return [];
    }
    if !obj.ext.isVrm1 {
      return [];
    }
    trace := UpdateSprings(deltaTime, frameCurrent, obj, step);
  }

  // ---------------------------------------------------------------------
  // All objects
  // ---------------------------------------------------------------------

  /**
    The outcomes of a pass over several objects, the poses it leaves (by
    position) and the joint states it leaves (by extension, which objects
    may share).
  */
  datatype WorldResult = WorldResult(traces: seq<seq<PairOutcome>>, poses: seq<Pose>,
                                     exts: map<VrmExtension, map<JointId, StateValue>>)

  /**
    `update_objects` from object `i` on, the objects' poses being `poses`
    and their extensions' states `exts`: each object's pass in turn,
    stopping after the first that ended in an exception.
  */
  function ObjectsFrom(deltaTime: real, frameCurrent: int, objects: seq<BlenderObject>, i: nat, poses: seq<Pose>,
                       exts: map<VrmExtension, map<JointId, StateValue>>, step: Integrator): (r: WorldResult)
    requires i <= |objects| == |poses|
    requires forall k :: 0 <= k < |poses| ==> ParentsInPose(poses[k])
    requires forall k :: 0 <= k < |objects| ==> objects[k].ext in exts
    ensures |r.poses| == |poses|
    ensures forall k :: 0 <= k < |objects| ==> objects[k].ext in r.exts
    decreases |objects| - i
  {
    if i == |objects| then WorldResult([], poses, exts)
    else
      var obj := objects[i];
      var p := ObjectPass(deltaTime, frameCurrent, obj, poses[i], exts[obj.ext], step);
      var poses' := poses[i := p.pose];
      var exts' := exts[obj.ext := p.states];
      if Aborted(p.trace) then WorldResult([p.trace], poses', exts')
      else
        var rest := ObjectsFrom(deltaTime, frameCurrent, objects, i + 1, poses', exts', step);
        WorldResult([p.trace] + rest.traces, rest.poses, rest.exts)
  }

  /** The objects' current poses, in order. */
  function PoseSnapshot(objects: seq<BlenderObject>): (r: seq<Pose>)
    reads objects
    ensures |r| == |objects| && forall k :: 0 <= k < |objects| ==> r[k] == objects[k].pose
    ensures (forall k :: 0 <= k < |objects| ==> WellFormed(objects[k].pose)) ==>
      forall k :: 0 <= k < |r| ==> ParentsInPose(r[k])
  {
    seq(|objects|, k requires 0 <= k < |objects| reads objects => objects[k].pose)
  }

  /** The current joint states of the objects' extensions. */
  function ExtSnapshot(objects: seq<BlenderObject>): (r: map<VrmExtension, map<JointId, StateValue>>)
    reads set k | 0 <= k < |objects| :: objects[k].ext
    ensures forall k :: 0 <= k < |objects| ==> objects[k].ext in r && r[objects[k].ext] == objects[k].ext.states
  {
    map e | e in (set k | 0 <= k < |objects| :: objects[k].ext) :: e.states
  }

  /** The expected trace of each object from the given poses, in order. */
  function TracesOf(objects: seq<BlenderObject>, poses: seq<Pose>): (r: seq<seq<PairOutcome>>)
    requires |poses| == |objects|
    ensures |r| == |objects| && forall k :: 0 <= k < |objects| ==> r[k] == ObjectTraceOf(objects[k], poses[k])
  {
    seq(|objects|, k requires 0 <= k < |objects| => ObjectTraceOf(objects[k], poses[k]))
  }

  /**
    The traces `update_objects` produces from the objects' own traces: one
    per object in order, stopping after the first that ended in an
    exception.
  */
  function RunUntilAborted(ts: seq<seq<PairOutcome>>): seq<seq<PairOutcome>>
    decreases |ts|
  {
    if ts == [] then []
    else if Aborted(ts[0]) then [ts[0]]
    else [ts[0]] + RunUntilAborted(ts[1..])
  }

  /**
    Every object is visited unless an earlier one raised, each visit yields
    that object's trace, and only the last visit can have raised.
  */
  lemma {:induction false} RunUntilAbortedShape(ts: seq<seq<PairOutcome>>)
    ensures var r := RunUntilAborted(ts);
      && |r| <= |ts|
      && (forall k :: 0 <= k < |r| ==> r[k] == ts[k])
      && (forall k :: 0 <= k < |r| - 1 ==> !Aborted(r[k]))
      && (|r| < |ts| ==> |r| > 0 && Aborted(r[|r| - 1]))
    decreases |ts|
  {
    if ts != [] && !Aborted(ts[0]) {
      RunUntilAbortedShape(ts[1..]);
    }
  }

  /** One turn of the object loop. */
  lemma RunStep(ts: seq<seq<PairOutcome>>, i: int)
    requires 0 <= i < |ts|
    ensures RunUntilAborted(ts[i..]) ==
      if Aborted(ts[i]) then [ts[i]] else [ts[i]] + RunUntilAborted(ts[i + 1..])
  {
    assert ts[i..][0] == ts[i];
    assert ts[i..][1..] == ts[i + 1..];
  }

  /** The fold over the objects yields each object's expected trace in turn, up to the first that raised. */
  lemma {:induction false} ObjectsFromTraces(deltaTime: real, frameCurrent: int, objects: seq<BlenderObject>, i: nat,
                                             poses: seq<Pose>, exts: map<VrmExtension, map<JointId, StateValue>>,
                                             step: Integrator)
    requires i <= |objects| == |poses|
    requires forall k :: 0 <= k < |poses| ==> ParentsInPose(poses[k])
    requires forall k :: 0 <= k < |objects| ==> objects[k].ext in exts
    ensures ObjectsFrom(deltaTime, frameCurrent, objects, i, poses, exts, step).traces
         == RunUntilAborted(TracesOf(objects, poses)[i..])
    decreases |objects| - i
  {
    var ts := TracesOf(objects, poses);
    if i == |objects| {
      assert ts[i..] == [];
    } else {
      var obj := objects[i];
      var p := ObjectPass(deltaTime, frameCurrent, obj, poses[i], exts[obj.ext], step);
      var poses' := poses[i := p.pose];
      var exts' := exts[obj.ext := p.states];
      ObjectPassTrace(deltaTime, frameCurrent, obj, poses[i], exts[obj.ext], step);
      RunStep(ts, i);
      if !Aborted(p.trace) {
        ObjectsFromTraces(deltaTime, frameCurrent, objects, i + 1, poses', exts', step);
        assert TracesOf(objects, poses')[i + 1..] == ts[i + 1..];
      }
    }
  }

  /** The fold over the objects keeps every pose's bones, parent links and flags. */
  lemma {:induction false} ObjectsFromStructure(deltaTime: real, frameCurrent: int, objects: seq<BlenderObject>, i: nat,
                                                poses: seq<Pose>, exts: map<VrmExtension, map<JointId, StateValue>>,
                                                step: Integrator)
    requires i <= |objects| == |poses|
    requires forall k :: 0 <= k < |poses| ==> ParentsInPose(poses[k])
    requires forall k :: 0 <= k < |objects| ==> objects[k].ext in exts
    ensures var r := ObjectsFrom(deltaTime, frameCurrent, objects, i, poses, exts, step);
      forall k :: 0 <= k < |poses| ==> SameStructure(poses[k], r.poses[k])
    decreases |objects| - i
  {
    var r := ObjectsFrom(deltaTime, frameCurrent, objects, i, poses, exts, step);
    if i < |objects| {
      var obj := objects[i];
      var p := ObjectPass(deltaTime, frameCurrent, obj, poses[i], exts[obj.ext], step);
      var poses' := poses[i := p.pose];
      var exts' := exts[obj.ext := p.states];
      ObjectPassStructure(deltaTime, frameCurrent, obj, poses[i], exts[obj.ext], step);
      if !Aborted(p.trace) {
        var rest := ObjectsFrom(deltaTime, frameCurrent, objects, i + 1, poses', exts', step);
        ObjectsFromStructure(deltaTime, frameCurrent, objects, i + 1, poses', exts', step);
        forall k | 0 <= k < |poses|
          ensures SameStructure(poses[k], r.poses[k])
        {
          assert SameStructure(poses[k], poses'[k]);
          SameStructureTransitive(poses[k], poses'[k], rest.poses[k]);
        }
      } else {
        forall k | 0 <= k < |poses|
          ensures SameStructure(poses[k], r.poses[k])
        {
          assert r.poses[k] == poses'[k];
        }
      }
    } else {
      forall k | 0 <= k < |poses|
        ensures SameStructure(poses[k], r.poses[k])
      {
        assert r.poses[k] == poses[k];
      }
    }
  }

  /**
    The fold over the objects visits at most the objects from `i` on, and
    the objects before `i` and after the one that raised keep their poses.
  */
  lemma {:induction false} ObjectsFromUntouched(deltaTime: real, frameCurrent: int, objects: seq<BlenderObject>, i: nat,
                                                poses: seq<Pose>, exts: map<VrmExtension, map<JointId, StateValue>>,
                                                step: Integrator)
    requires i <= |objects| == |poses|
    requires forall k :: 0 <= k < |poses| ==> ParentsInPose(poses[k])
    requires forall k :: 0 <= k < |objects| ==> objects[k].ext in exts
    ensures var r := ObjectsFrom(deltaTime, frameCurrent, objects, i, poses, exts, step);
      && |r.traces| <= |objects| - i
      && (forall k :: 0 <= k < i || i + |r.traces| <= k < |poses| ==> r.poses[k] == poses[k])
    decreases |objects| - i
  {
    if i < |objects| {
      var obj := objects[i];
      var p := ObjectPass(deltaTime, frameCurrent, obj, poses[i], exts[obj.ext], step);
      var poses' := poses[i := p.pose];
      var exts' := exts[obj.ext := p.states];
      if !Aborted(p.trace) {
        ObjectsFromUntouched(deltaTime, frameCurrent, objects, i + 1, poses', exts', step);
      }
    }
  }

  /**
    One turn of `update_objects`: object `i`'s pass, from the poses `poses`
    and extension states `exts` the objects hold.  Only that object's pose
    and its extension's states change, even where the extension is shared.
  */
  method VisitObject(deltaTime: real, frameCurrent: int, objects: seq<BlenderObject>, i: int, step: Integrator,
                     ghost poses: seq<Pose>, ghost exts: map<VrmExtension, map<JointId, StateValue>>)
    returns (trace: seq<PairOutcome>)
    requires 0 <= i < |objects| == |poses|
    requires forall j, k :: 0 <= j < k < |objects| ==> objects[j] != objects[k]
    requires WellFormed(poses[i])
    requires forall k :: 0 <= k < |objects| ==> objects[k].ext in exts
    requires forall k :: 0 <= k < |objects| ==>
      objects[k].pose == poses[k] && objects[k].ext.states == exts[objects[k].ext]
    modifies objects[i], objects[i].ext
    ensures var p := ObjectPass(deltaTime, frameCurrent, objects[i], poses[i], exts[objects[i].ext], step);
      && trace == p.trace
      && WellFormed(p.pose)
      && forall k :: 0 <= k < |objects| ==>
           objects[k].pose == poses[i := p.pose][k]
           && objects[k].ext.states == exts[objects[i].ext := p.states][objects[k].ext]
  {
    var obj := objects[i];
    trace := UpdateObject(deltaTime, frameCurrent, obj, step);
    forall k | 0 <= k < |objects| && k != i
      ensures objects[k].pose == old(objects[k].pose)
    {
      assert objects[k] != obj && objects[k] as object != obj.ext;
    }
  }

  /**
    The loop of `update_objects` over objects holding the poses `poses0`
    and extension states `exts0`: each object's pass in turn, until one
    raises.  The new poses and states are those of the fold.
  */
  method RunObjects(deltaTime: real, frameCurrent: int, objects: seq<BlenderObject>, step: Integrator,
                    ghost poses0: seq<Pose>, ghost exts0: map<VrmExtension, map<JointId, StateValue>>)
    returns (traces: seq<seq<PairOutcome>>)
    requires |objects| == |poses0|
    requires forall j, k :: 0 <= j < k < |objects| ==> objects[j] != objects[k]
    requires forall k :: 0 <= k < |poses0| ==> WellFormed(poses0[k]) && ParentsInPose(poses0[k])
    requires forall k :: 0 <= k < |objects| ==> objects[k].ext in exts0
    requires forall k :: 0 <= k < |objects| ==>
      objects[k].pose == poses0[k] && objects[k].ext.states == exts0[objects[k].ext]
    modifies set k | 0 <= k < |objects| :: objects[k]
    modifies set k | 0 <= k < |objects| :: objects[k].ext
    ensures var w := ObjectsFrom(deltaTime, frameCurrent, objects, 0, poses0, exts0, step);
      && traces == w.traces
      && forall k :: 0 <= k < |objects| ==>
           objects[k].pose == w.poses[k] && objects[k].ext.states == w.exts[objects[k].ext]
    ensures forall k :: 0 <= k < |objects| ==> WellFormed(objects[k].pose)
  {
    ghost var full := ObjectsFrom(deltaTime, frameCurrent, objects, 0, poses0, exts0, step);
    ghost var poses: seq<Pose> := poses0;
    ghost var exts: map<VrmExtension, map<JointId, StateValue>> := exts0;
    traces := [];
    var i := 0;
    while i < |objects|
      invariant 0 <= i <= |objects| == |poses|
      invariant forall k :: 0 <= k < |poses| ==> WellFormed(poses[k]) && ParentsInPose(poses[k])
      invariant forall k :: 0 <= k < |objects| ==> objects[k].ext in exts
      invariant forall k :: 0 <= k < |objects| ==>
        objects[k].pose == poses[k] && objects[k].ext.states == exts[objects[k].ext]
      invariant var rest := ObjectsFrom(deltaTime, frameCurrent, objects, i, poses, exts, step);
        full.traces == traces + rest.traces && full.poses == rest.poses && full.exts == rest.exts
    {
      var trace := VisitObject(deltaTime, frameCurrent, objects, i, step, poses, exts);
      ghost var p := ObjectPass(deltaTime, frameCurrent, objects[i], poses[i], exts[objects[i].ext], step);
      poses := poses[i := p.pose];
      exts := exts[objects[i].ext := p.states];
      ghost var rest := ObjectsFrom(deltaTime, frameCurrent, objects, i + 1, poses, exts, step);
      AppendAssociative(traces, [trace], rest.traces);
      traces := traces + [trace];
      if Aborted(trace) {
        break;
      }
      i := i + 1;
    }
    assert traces + [] == traces;
  }

  /**
    `update_objects`: every object in turn, until one raises.  The objects
    of a blend file are distinct, so each pose is visited once; their VRM
    extensions may be shared, and a shared extension's states carry over
    from one object's pass to the next.
  */
  method UpdateObjects(deltaTime: real, frameCurrent: int, objects: seq<BlenderObject>, step: Integrator)
    returns (traces: seq<seq<PairOutcome>>)
    requires forall k :: 0 <= k < |objects| ==> WellFormed(objects[k].pose)
    requires forall j, k :: 0 <= j < k < |objects| ==> objects[j] != objects[k]
    modifies set k | 0 <= k < |objects| :: objects[k]
    modifies set k | 0 <= k < |objects| :: objects[k].ext
    ensures var w := ObjectsFrom(deltaTime, frameCurrent, objects, 0, old(PoseSnapshot(objects)),
                                 old(ExtSnapshot(objects)), step);
      && traces == w.traces
      && forall k :: 0 <= k < |objects| ==>
           objects[k].pose == w.poses[k] && objects[k].ext.states == w.exts[objects[k].ext]
    ensures traces == RunUntilAborted(TracesOf(objects, old(PoseSnapshot(objects))))
    ensures forall k :: 0 <= k < |objects| ==>
      WellFormed(objects[k].pose) && SameStructure(old(objects[k].pose), objects[k].pose)
    // the objects after the one that raised keep their poses
    ensures forall k :: |traces| <= k < |objects| ==> objects[k].pose == old(objects[k].pose)
  {
    ghost var poses0 := PoseSnapshot(objects);
    ghost var exts0 := ExtSnapshot(objects);
    ObjectsFromTraces(deltaTime, frameCurrent, objects, 0, poses0, exts0, step);
    ObjectsFromStructure(deltaTime, frameCurrent, objects, 0, poses0, exts0, step);
    ObjectsFromUntouched(deltaTime, frameCurrent, objects, 0, poses0, exts0, step);
    assert TracesOf(objects, poses0)[0..] == TracesOf(objects, poses0);
    traces := RunObjects(deltaTime, frameCurrent, objects, step, poses0, exts0);
  }
}
