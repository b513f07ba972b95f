/**
  The part of Blender's pose data that the spring-bone update reads: pose
  bones keyed by name, their parent links and flags, and the matrices that
  the position reads go through.  Vectors, quaternions and matrices are
  plain records of reals; only `WorldTranslation` computes with them.
*/
module PoseModel {
  import opened Wrappers

  type Name = string

  datatype Vec3 = Vec3(x: real, y: real, z: real)

  datatype Quat = Quat(w: real, x: real, y: real, z: real)

  datatype Row4 = Row4(c0: real, c1: real, c2: real, c3: real)

  /** A 4x4 matrix, row by row. */
  datatype Mat4 = Mat4(r0: Row4, r1: Row4, r2: Row4, r3: Row4)

  function Dot4(a: Row4, b: Row4): real
  {
    a.c0 * b.c0 + a.c1 * b.c1 + a.c2 * b.c2 + a.c3 * b.c3
  }

  function TranslationColumn(m: Mat4): Row4
  {
    Row4(m.r0.c3, m.r1.c3, m.r2.c3, m.r3.c3)
  }

  /** `(world @ local).to_translation()`: rows 0 to 2 of the product, last column. */
  function WorldTranslation(world: Mat4, local: Mat4): Vec3
  {
    var t := TranslationColumn(local);
    Vec3(Dot4(world.r0, t), Dot4(world.r1, t), Dot4(world.r2, t))
  }

  /**
    One pose bone as the update sees it: `parent` is the name of the parent
    pose bone, `useConnect` and `useLocalLocation` are the flags of the
    underlying bone, `matrix` is the pose matrix in armature space and
    `matrixLocal` the rest matrix of the bone.
  */
  datatype PoseBone = PoseBone(
    parent: Option<Name>,
    useConnect: bool,
    useLocalLocation: bool,
    rotationMode: string,
    rotationQuaternion: Quat,
    matrix: Mat4,
    matrixLocal: Mat4)

  /** `obj.pose.bones`, looked up by name. */
  type Pose = map<Name, PoseBone>

  /** Following parent links from `cur` reaches a root within `fuel` steps, through bones of `s` only. */
  predicate RootedWithin(s: Pose, cur: Option<Name>, fuel: nat)
    decreases fuel
  {
    match cur
    case None => true
    case Some(n) => n in s && fuel > 0 && RootedWithin(s, s[n].parent, fuel - 1)
  }

  /** Every parent link names a bone of the pose. */
  predicate ParentsInPose(s: Pose)
  {
    forall n :: n in s && s[n].parent.Some? ==> s[n].parent.value in s
  }

  /**
    Blender's bone hierarchy is a forest: every parent link names a bone of
    the pose and no chain of parent links is a cycle, so every chain ends
    within as many steps as there are bones.
  */
  predicate WellFormed(s: Pose)
  {
    && ParentsInPose(s)
    && forall n :: n in s ==> RootedWithin(s, s[n].parent, |s|)
  }

  /**
    The names met by following parent links from `cur`, nearest first, for
    at most `fuel` steps (on a well-formed pose the fuel never runs out).
  */
  function AncestorChain(s: Pose, cur: Option<Name>, fuel: nat): (r: seq<Name>)
    decreases fuel
  {
    match cur
    case None => []
    case Some(n) => if n in s && fuel > 0 then [n] + AncestorChain(s, s[n].parent, fuel - 1) else []
  }

  /** The strict ancestors of bone `b`: the walk starts at `b`'s parent. */
  function Ancestors(s: Pose, b: Name): seq<Name>
    requires b in s
  {
    AncestorChain(s, s[b].parent, |s|)
  }

  /** Reference definition: `k` parent steps from `cur` (`None` once a root is passed). */
  function StepsUp(s: Pose, cur: Option<Name>, k: nat): Option<Name>
    decreases k
  {
    if k == 0 then cur
    else match cur
      case None => None
      case Some(n) => StepsUp(s, if n in s then s[n].parent else None, k - 1)
  }

  /** `a` is reached from `b` by one or more parent steps. */
  ghost predicate IsStrictAncestor(s: Pose, a: Name, b: Name)
  {
    exists k: nat :: 1 <= k && StepsUp(s, Some(b), k) == Some(a)
  }

  /** The two hierarchies have the same bones, parent links and flags; only rotations and matrices may differ. */
  predicate SameStructure(s: Pose, t: Pose)
  {
    && s.Keys == t.Keys
    && forall n :: n in s ==>
         && t[n].parent == s[n].parent
         && t[n].useConnect == s[n].useConnect
         && t[n].useLocalLocation == s[n].useLocalLocation
  }

  lemma SameStructureTransitive(s: Pose, t: Pose, u: Pose)
    requires SameStructure(s, t) && SameStructure(t, u)
    ensures SameStructure(s, u)
  {
  }

  lemma {:induction false} ChainAt(s: Pose, cur: Option<Name>, fuel: nat, k: nat)
    requires RootedWithin(s, cur, fuel)
    ensures k < |AncestorChain(s, cur, fuel)| ==> StepsUp(s, cur, k) == Some(AncestorChain(s, cur, fuel)[k])
    ensures k >= |AncestorChain(s, cur, fuel)| ==> StepsUp(s, cur, k) == None
    decreases fuel
  {
    match cur
    case None =>
      if k > 0 {
        NoneStaysNone(s, k);
      }
    case Some(n) =>
      if k > 0 {
        ChainAt(s, s[n].parent, fuel - 1, k - 1);
      }
  }

  lemma {:induction false} NoneStaysNone(s: Pose, k: nat)
    ensures StepsUp(s, None, k) == None
  {
    if k > 0 {
      NoneStaysNone(s, k - 1);
    }
  }

  /** The walk of `Ancestors` meets exactly the bones reached by one or more parent steps. */
  lemma AncestorsAreIteratedParents(s: Pose, b: Name, a: Name)
    requires WellFormed(s) && b in s
    ensures a in Ancestors(s, b) <==> IsStrictAncestor(s, a, b)
  {
    var c := Ancestors(s, b);
    if a in c {
      var i :| 0 <= i < |c| && c[i] == a;
      ChainAt(s, s[b].parent, |s|, i);
      assert StepsUp(s, Some(b), i + 1) == Some(a);
    }
    if IsStrictAncestor(s, a, b) {
      var k: nat :| 1 <= k && StepsUp(s, Some(b), k) == Some(a);
      assert StepsUp(s, Some(b), k) == StepsUp(s, s[b].parent, k - 1);
      ChainAt(s, s[b].parent, |s|, k - 1);
    }
  }

  /** Two walks from the same start agree whatever fuel they were given. */
  lemma {:induction false} ChainFuelIrrelevant(s: Pose, cur: Option<Name>, f1: nat, f2: nat)
    requires RootedWithin(s, cur, f1) && RootedWithin(s, cur, f2)
    ensures AncestorChain(s, cur, f1) == AncestorChain(s, cur, f2)
    decreases f1
  {
    match cur
    case None =>
    case Some(n) =>
      ChainFuelIrrelevant(s, s[n].parent, f1 - 1, f2 - 1);
  }

  /** What follows the `k`-th name of a walk is the walk from that bone's parent. */
  lemma {:induction false} ChainSuffix(s: Pose, cur: Option<Name>, fuel: nat, k: nat)
    requires RootedWithin(s, cur, fuel)
    requires k < |AncestorChain(s, cur, fuel)|
    ensures k + 1 <= fuel
    ensures AncestorChain(s, cur, fuel)[k] in s
    ensures RootedWithin(s, s[AncestorChain(s, cur, fuel)[k]].parent, fuel - k - 1)
    ensures AncestorChain(s, cur, fuel)[k + 1..]
         == AncestorChain(s, s[AncestorChain(s, cur, fuel)[k]].parent, fuel - k - 1)
    decreases fuel
  {
    var n := cur.value;
    if k > 0 {
      ChainSuffix(s, s[n].parent, fuel - 1, k - 1);
    }
  }

  /** A bone is never among its own strict ancestors. */
  lemma NotOwnAncestor(s: Pose, b: Name)
    requires WellFormed(s) && b in s
    ensures b !in Ancestors(s, b)
  {
    var c := Ancestors(s, b);
    forall k | 0 <= k < |c|
      ensures c[k] != b
    {
      ChainSuffix(s, s[b].parent, |s|, k);
      if c[k] == b {
        ChainFuelIrrelevant(s, s[b].parent, |s|, |s| - k - 1);
        assert false;
      }
    }
  }

  lemma {:induction false} ChainRespectsStructure(s: Pose, t: Pose, cur: Option<Name>, fuel: nat)
    requires SameStructure(s, t)
    requires RootedWithin(s, cur, fuel)
    ensures RootedWithin(t, cur, fuel)
    ensures AncestorChain(t, cur, fuel) == AncestorChain(s, cur, fuel)
    decreases fuel
  {
    match cur
    case None =>
    case Some(n) =>
      ChainRespectsStructure(s, t, s[n].parent, fuel - 1);
  }

  /** Walks over two hierarchies with the same parent links meet the same names, well-formed or not. */
  lemma {:induction false} ChainsAgree(s: Pose, t: Pose, cur: Option<Name>, fuel: nat)
    requires SameStructure(s, t)
    ensures AncestorChain(t, cur, fuel) == AncestorChain(s, cur, fuel)
    decreases fuel
  {
    match cur
    case None =>
    case Some(n) =>
      if n in s && fuel > 0 {
        ChainsAgree(s, t, s[n].parent, fuel - 1);
      }
  }

  /** Rewriting rotations and matrices keeps every bone's ancestors. */
  lemma AncestorsAgree(s: Pose, t: Pose)
    requires SameStructure(s, t)
    ensures forall b :: b in s ==> Ancestors(t, b) == Ancestors(s, b)
  {
    assert |t| == |s| by {
      assert t.Keys == s.Keys;
    }
    forall b | b in s
      ensures AncestorChain(t, t[b].parent, |t|) == AncestorChain(s, s[b].parent, |s|)
    {
      ChainsAgree(s, t, s[b].parent, |s|);
    }
  }

  /** Rewriting rotations and matrices keeps the hierarchy a forest and keeps every bone's ancestors. */
  lemma StructurePreservesAncestors(s: Pose, t: Pose)
    requires WellFormed(s) && SameStructure(s, t)
    ensures WellFormed(t)
    ensures forall b :: b in s ==> Ancestors(t, b) == Ancestors(s, b)
  {
    assert |t| == |s| by {
      assert t.Keys == s.Keys;
    }
    forall b | b in s
      ensures RootedWithin(t, t[b].parent, |t|)
      ensures AncestorChain(t, t[b].parent, |t|) == AncestorChain(s, s[b].parent, |s|)
    {
      ChainRespectsStructure(s, t, s[b].parent, |s|);
    }
  }

  /** Replacing one bone by one with the same parent and flags keeps the pose well formed. */
  lemma BoneRewriteKeepsWellFormed(s: Pose, n: Name, b: PoseBone)
    requires WellFormed(s) && n in s
    requires b.parent == s[n].parent && b.useConnect == s[n].useConnect
    requires b.useLocalLocation == s[n].useLocalLocation
    ensures SameStructure(s, s[n := b]) && WellFormed(s[n := b])
  {
    assert s[n := b].Keys == s.Keys;
    StructurePreservesAncestors(s, s[n := b]);
  }
}
