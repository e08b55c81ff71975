/**
 The recursive branch generator `tree(scene, level, matrix, color)` defined
 inside `_setupModel`. Each call with a positive level emits two branch meshes
 that share the one cylinder geometry, each with a fresh material, and recurses
 on `level - 1` after each emission.
 */
module FractalTree {
  import opened Transforms
  import opened Colors
  import opened SceneGraph

  /** Width of the trunk cylinder at its base, `partWidth`. */
  const PartWidth: real := 50.0

  /** Height of every cylinder before scaling, `partHeight`. */
  const PartHeight: real := 200.0

  /** The depth the generator is seeded with, `levels`; `tree` reads it for its green steps. */
  const Levels: nat := 12

  /** The two branches each call emits, in emission order. */
  datatype Side = First | Second

  /** How much a branch's green exceeds its parent's: `0.7 / levels` or `0.64 / levels`. */
  function GreenStep(side: Side): real
  {
    match side
    case First => 0.7 / Levels as real
    case Second => 0.64 / Levels as real
  }

  /**
   The local transform of a branch, built from a fresh identity matrix by five
   chained `multiply` calls: rotate pi/2 about Y, translate half the width
   along X (+ for the first branch, - for the second), rotate about Z (-pi/4
   for the first, +pi/4 for the second), scale by 0.75, translate the height
   along Y.
   */
  function BuildLocal(side: Side): Mat
  {
    var sign := if side == First then 1.0 else -1.0;
    Multiply(
      Multiply(
        Multiply(
          Multiply(
            Multiply(Identity, MakeRotationY(0.5)),
            MakeTranslation(sign * PartWidth / 2.0, 0.0, 0.0)),
          MakeRotationZ(-sign * 0.25)),
        MakeScale(0.75, 0.75, 0.75)),
      MakeTranslation(0.0, PartHeight, 0.0))
  }

  /** The local transforms of the first and second branch; each call builds them anew, always to the same value. */
  const L1: Mat := BuildLocal(First)
  const L2: Mat := BuildLocal(Second)

  function Local(side: Side): Mat
  {
    match side
    case First => L1
    case Second => L2
  }

  /** The factor that the mirror image of a branch uses in place of `e`: X translation and Z rotation change sign. */
  function MirrorFactor(e: Elementary): Elementary
  {
    match e
    case Translation(x, y, z) => Translation(-x, y, z)
    case RotationZ(a) => RotationZ(-a)
    case _ => e
  }

  /** The mirror image of a product: each factor replaced by its mirror, in the same order. */
  function Mirror(m: Mat): Mat
  {
    Product(seq(|m.factors|, i requires 0 <= i < |m.factors| => MirrorFactor(m.factors[i])))
  }

  /** Mirroring twice gives back the product: the mirror relation between the two sides is symmetric. */
  lemma MirrorInvolutive(m: Mat)
    ensures Mirror(Mirror(m)) == m
  {
  }

  /**
   The first branch's local transform is the stated product, and each
   branch's is the mirror image of the other's. As words of elementary
   transforms the two differ; that is a fact about the words, not an equation
   between matrices.
   */
  lemma LocalTransforms()
    ensures Local(First) == Product([RotationY(0.5), Translation(25.0, 0.0, 0.0), RotationZ(-0.25),
                                     Scale(0.75, 0.75, 0.75), Translation(0.0, 200.0, 0.0)])
    ensures Local(Second) == Mirror(Local(First))
    ensures Local(First) == Mirror(Local(Second))
    ensures Local(First) != Local(Second)
  {
    assert Local(Second).factors[1] == Translation(-25.0, 0.0, 0.0);
    MirrorInvolutive(Local(First));
  }

  function Pow2(n: nat): (p: nat)
    ensures p >= 1
  {
    if n == 0 then 1 else 2 * Pow2(n - 1)
  }

  /** The number of branches a call on `level` emits, counting every recursive call. */
  function BranchCount(level: nat): nat
  {
    Pow2(level + 1) - 2
  }

  /**
   Adds one branch to the scene: a mesh with the shared geometry, a newly
   created material of the given colour, and the given world matrix.
   */
  function AddBranch(w: World, geometry: Ref, matrix: Mat, color: Rgb): World
  {
    var (material, w1) := NewMaterial(w, color);
    Add(w1, Mesh(geometry, material, matrix))
  }

  /**
   `tree(scene, level, matrix, color)`, with the captured `geometry` as a
   parameter. For each side: clone the parent colour and raise its green,
   build the local transform and multiply the parent matrix into it, and add
   a mesh with that product; then recurse. Because `multiply` changes its
   receiver, the matrix handed to the recursive call is the product just
   emitted, not the local transform.

   The level alone decreases; listing `w` as well keeps the verifier from
   unrolling a call whose level is a literal, such as the seeding with 12.
   */
  function Tree(w: World, geometry: Ref, level: nat, matrix: Mat, color: Rgb): World
    decreases level, w
  {
    if level == 0 then w
    else
      var color1 := CloneAddGreen(color, GreenStep(First));
      var matrix1 := Multiply(Local(First), matrix);
      var w1 := AddBranch(w, geometry, matrix1, color1);
      var w2 := Tree(w1, geometry, level - 1, matrix1, color1);
      var color2 := CloneAddGreen(color, GreenStep(Second));
      var matrix2 := Multiply(Local(Second), matrix);
      var w3 := AddBranch(w2, geometry, matrix2, color2);
      Tree(w3, geometry, level - 1, matrix2, color2)
  }
}
