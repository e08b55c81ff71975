/**
 The start-up of the application as far as the scene is concerned: the two
 lights, then the trunk, then the branches `tree` grows from the trunk's
 matrix and colour with twelve levels. The camera and the controls do not
 touch the scene.
 */
module App {
  import opened Transforms
  import opened Colors
  import opened SceneGraph
  import opened FractalTree
  import opened TreePaths
  import opened TreeProperties

  /** `Color("#a04500")`: the channel bytes 0xa0, 0x45, 0x00 scaled to [0, 1]. */
  const TrunkColor: Rgb := Rgb(160.0 / 255.0, 69.0 / 255.0, 0.0)

  /** The one cylinder geometry, shared by the trunk and every branch. */
  const TrunkShape: Cylinder := Cylinder(PartWidth * 0.65, PartWidth, PartHeight, 32)

  /** The trunk's matrix: a fresh identity overwritten by a translation half the height down. */
  const TrunkMatrix: Mat := MakeTranslation(0.0, -PartHeight / 2.0, 0.0)

  /** `_setupLight`: a white directional light of intensity 1 at (-1, 2, 4), then a white ambient light of intensity 1. */
  function SetupLight(w: World): World
  {
    Add(Add(w, DirectionalLight(0xffffff, 1.0, -1.0, 2.0, 4.0)), AmbientLight(0xffffff, 1.0))
  }

  /** `_setupModel`: create the geometry and the trunk material, add the trunk, then grow the tree from it. */
  function SetupModel(w: World): World
  {
    var (geometry, w1) := NewGeometry(w, TrunkShape);
    var (material, w2) := NewMaterial(w1, TrunkColor);
    var w3 := Add(w2, Mesh(geometry, material, TrunkMatrix));
    Tree(w3, geometry, Levels, TrunkMatrix, TrunkColor)
  }

  /**
   The constructor's scene work, in its order: the lights, then the model,
   on a new empty scene with no geometry yet. The model's numbering of
   geometries and materials is its own, so the first free reference, `next`,
   is left open.
   */
  function Startup(next: Ref): World
  {
    SetupModel(SetupLight(World([], next, map[])))
  }

  /** The lights are appended after what the scene held, and no geometry or material is created. */
  lemma SetupLightContents(w: World)
    ensures var w' := SetupLight(w);
            && |w'.scene| == |w.scene| + 2
            && w'.scene[..|w.scene|] == w.scene
            && w'.scene[|w.scene|] == DirectionalLight(0xffffff, 1.0, -1.0, 2.0, 4.0)
            && w'.scene[|w.scene| + 1] == AmbientLight(0xffffff, 1.0)
            && w'.next == w.next && w'.geometries == w.geometries
  {
  }

  /**
   The trunk is appended after what the scene held, on a newly created
   geometry and material, followed by every branch; the branches all use the
   trunk's geometry and each gets the next material.
   */
  lemma SetupModelContents(w: World)
    ensures var w' := SetupModel(w);
            && |w'.scene| == |w.scene| + 1 + BranchCount(Levels)
            && w'.scene[..|w.scene|] == w.scene
            && w'.scene[|w.scene|] == Mesh(w.next, Phong(w.next + 1, TrunkColor), TrunkMatrix)
            && w'.next == w.next + 2 + BranchCount(Levels)
            && w'.geometries == w.geometries[w.next := TrunkShape]
            && forall i :: |w.scene| < i < |w'.scene| ==>
                 && w'.scene[i].Mesh?
                 && w'.scene[i].geometry == w.next
                 && w'.scene[i].material.id == w.next + 1 + (i - |w.scene|)
  {
    var w3 := World(w.scene + [Mesh(w.next, Phong(w.next + 1, TrunkColor), TrunkMatrix)], w.next + 2,
                    w.geometries[w.next := TrunkShape]);
    assert SetupModel(w) == Tree(w3, w.next, Levels, TrunkMatrix, TrunkColor);
    TreeGrowth(w3, w.next, Levels, TrunkMatrix, TrunkColor);
    var w' := SetupModel(w);
    assert w'.scene[..|w.scene|] == w'.scene[..|w3.scene|][..|w.scene|];
  }

  /**
   After start-up the scene holds the two lights, the trunk and `2^13 - 2`
   branches, one geometry exists, and one material per mesh has been created.
   */
  lemma StartupCounts(next: Ref)
    ensures var w := Startup(next);
            && |w.scene| == 2 + 1 + (Pow2(Levels + 1) - 2) == 8193
            && w.scene[0] == DirectionalLight(0xffffff, 1.0, -1.0, 2.0, 4.0)
            && w.scene[1] == AmbientLight(0xffffff, 1.0)
            && w.scene[2] == Mesh(next, Phong(next + 1, TrunkColor), TrunkMatrix)
            && w.geometries == map[next := TrunkShape]
            && w.next == next + 8192
  {
    var lit := SetupLight(World([], next, map[]));
    SetupLightContents(World([], next, map[]));
    SetupModelContents(lit);
    var w := Startup(next);
    assert w.scene[..2] == lit.scene;
    assert w.scene[0] == w.scene[..2][0] && w.scene[1] == w.scene[..2][1];
    assert Pow2(Levels + 1) == 8192;
  }

  /** The world `_setupModel` hands to `tree`: the geometry and the trunk's material created, the trunk added. */
  function TrunkAdded(w: World, shape: Cylinder, matrix: Mat, color: Rgb): World
  {
    World(w.scene + [Mesh(w.next, Phong(w.next + 1, color), matrix)], w.next + 2, w.geometries[w.next := shape])
  }

  /** `_setupModel` is the trunk followed by one call of `tree` from the trunk's matrix and colour. */
  lemma SetupModelIsTree(w: World)
    ensures SetupModel(w) == Tree(TrunkAdded(w, TrunkShape, TrunkMatrix, TrunkColor), w.next, Levels, TrunkMatrix, TrunkColor)
  {
  }

  /**
   The `i`-th branch grown after a trunk, whatever the trunk's shape, matrix
   and colour; `k` is its position in the scene and `id` its material.
   */
  lemma BranchAfterTrunk(w: World, shape: Cylinder, level: nat, matrix: Mat, color: Rgb, i: nat, k: nat, id: Ref)
    requires i < BranchCount(level) && k == |w.scene| + 1 + i && id == w.next + 2 + i
    ensures i < |Paths(level)|
    ensures var p := Paths(level)[i];
            var w' := Tree(TrunkAdded(w, shape, matrix, color), w.next, level, matrix, color);
            && k < |w'.scene|
            && w'.scene[k] == Mesh(w.next, Phong(id, Rgb(color.r, color.g + GreenSum(p), color.b)), Mul(Chain(p), matrix))
  {
    TreeBranch(TrunkAdded(w, shape, matrix, color), w.next, level, matrix, color, i);
  }

  /**
   The `i`-th branch after start-up, right after the lights and the trunk: its
   matrix is the product of the local transforms along its path times the
   trunk's matrix, and its colour is the trunk's with only the green raised,
   by the steps along its path.
   */
  lemma StartupBranch(next: Ref, i: nat)
    requires i < BranchCount(Levels)
    ensures i < |Paths(Levels)| && 1 <= |Paths(Levels)[i]| <= Levels
    ensures var p := Paths(Levels)[i];
            var w := Startup(next);
            && 3 + i < |w.scene|
            && w.scene[3 + i] == Mesh(next, Phong(next + 2 + i, Rgb(TrunkColor.r, TrunkColor.g + GreenSum(p), TrunkColor.b)),
                                      Mul(Chain(p), TrunkMatrix))
  {
    var lights := SetupLight(World([], next, map[]));
    assert |lights.scene| == 2 && lights.next == next;
    SetupModelIsTree(lights);
    BranchAfterTrunk(lights, TrunkShape, Levels, TrunkMatrix, TrunkColor, i, 3 + i, next + 2 + i);
    PathsLengths(Levels, i);
  }

  /**
   A corollary of `StartupBranch`: as a word of elementary transforms, every
   branch's matrix ends with the trunk's translation half the height down.
   */
  lemma TrunkLastFactor(p: Path)
    ensures var factors := Mul(Chain(p), TrunkMatrix).factors;
            |factors| > 0 && factors[|factors| - 1] == Translation(0.0, -100.0, 0.0)
  {
  }

  /**
   A corollary of `GreenSumBounds` for `levels = 12`: each step raises green
   by 0.7/12 or by 0.64/12, so the green gained along a path lies between
   `|p|` times the smaller and `|p|` times the larger step.
   */
  lemma GreenGainBounds(p: Path)
    ensures forall s: Side :: GreenStep(s) == 0.7 / 12.0 || GreenStep(s) == 0.64 / 12.0
    ensures (|p| as real) * (0.64 / 12.0) <= GreenSum(p) <= (|p| as real) * (0.7 / 12.0)
  {
    GreenSumBounds(p);
    assert GreenStep(First) == 0.7 / 12.0 && GreenStep(Second) == 0.64 / 12.0;
  }
}
