/**
 An independent description of what `tree` emits. A branch is named by the
 path of sides taken from the call that emits it back to the seed call; the
 branch's matrix and colour follow from its path alone. The main theorem says
 that `tree` emits exactly one mesh per path of length 1 to `level`, in
 depth-first pre-order, with those matrices and colours and with materials
 numbered in emission order.

 Several lemmas here and in the modules built on this one take a parameter
 that is fixed by a precondition `x == expr` (`next2`, `mid`, `last`, `n`,
 `k`, `id`, the sequences `r`, `sub1`, `sub2`) instead of naming `expr` in
 the body. The callers pass exactly `expr`, so nothing is lost. The point is
 that the verifier then sees the same terms syntactically in the statement
 and at the call, instead of having to rediscover arithmetic identities
 inside function arguments, which is slow.
 */
module TreePaths {
  import opened Transforms
  import opened Colors
  import opened SceneGraph
  import opened FractalTree

  /** The sides taken from the seed call to a branch, outermost first. */
  type Path = seq<Side>

  /** The paths `ps`, each with `side` put in front. */
  function Under(side: Side, ps: seq<Path>): (qs: seq<Path>)
    ensures |qs| == |ps|
  {
    if ps == [] then [] else [[side] + ps[0]] + Under(side, ps[1..])
  }

  /** Every path of length 1 to `n`, each node before its descendants and the first side before the second. */
  function Paths(n: nat): seq<Path>
  {
    if n == 0 then []
    else [[First]] + Under(First, Paths(n - 1)) + [[Second]] + Under(Second, Paths(n - 1))
  }

  /** The world matrix of the branch at `path` below a call given `matrix`, one local transform per step. */
  function MatrixAlong(path: Path, matrix: Mat): Mat
  {
    if path == [] then matrix else MatrixAlong(path[1..], Mul(Local(path[0]), matrix))
  }

  /** The colour of the branch at `path` below a call given `color`, one green step per step. */
  function ColorAlong(path: Path, color: Rgb): Rgb
  {
    if path == [] then color else ColorAlong(path[1..], CloneAddGreen(color, GreenStep(path[0])))
  }

  /** The sum of the green steps along `path`. */
  function GreenSum(path: Path): real
  {
    if path == [] then 0.0 else GreenStep(path[0]) + GreenSum(path[1..])
  }

  /** `L_kd * ... * L_k1` for the path `k1 ... kd`: the deepest step's local transform comes first. */
  function Chain(path: Path): Mat
  {
    if path == [] then Identity else Mul(Local(path[|path| - 1]), Chain(path[..|path| - 1]))
  }

  /** The meshes expected for the paths `ps`, the i-th with material reference `next + i`. */
  function Render(ps: seq<Path>, geometry: Ref, matrix: Mat, color: Rgb, next: Ref): (objs: seq<Object3D>)
    ensures |objs| == |ps|
  {
    if ps == [] then []
    else [Mesh(geometry, Phong(next, ColorAlong(ps[0], color)), MatrixAlong(ps[0], matrix))]
         + Render(ps[1..], geometry, matrix, color, next + 1)
  }

  /** Rendering a concatenation; `next2` is where the second part's material references start. */
  lemma {:induction false} RenderAppend(ps1: seq<Path>, ps2: seq<Path>, geometry: Ref, matrix: Mat, color: Rgb, next: Ref, next2: Ref)
    requires next2 == next + |ps1|
    ensures Render(ps1 + ps2, geometry, matrix, color, next)
         == Render(ps1, geometry, matrix, color, next) + Render(ps2, geometry, matrix, color, next2)
    decreases |ps1|
  {
    if ps1 != [] {
      assert (ps1 + ps2)[1..] == ps1[1..] + ps2;
      RenderAppend(ps1[1..], ps2, geometry, matrix, color, next + 1, next2);
    } else {
      assert ps1 + ps2 == ps2;
    }
  }

  /** The branches below one side of a call are the branches of the recursive call made for that side. */
  lemma {:induction false} RenderUnder(side: Side, ps: seq<Path>, geometry: Ref, matrix: Mat, color: Rgb, next: Ref)
    ensures Render(Under(side, ps), geometry, matrix, color, next)
         == Render(ps, geometry, Mul(Local(side), matrix), CloneAddGreen(color, GreenStep(side)), next)
    decreases |ps|
  {
    if ps != [] {
      var qs := Under(side, ps);
      assert qs[0][1..] == ps[0];
      assert qs[1..] == Under(side, ps[1..]);
      assert qs[0][0] == side;
      RenderUnder(side, ps[1..], geometry, matrix, color, next + 1);
    }
  }

  lemma ConcatRegroup<T>(s: seq<T>, a: seq<T>, b: seq<T>, c: seq<T>, d: seq<T>)
    ensures s + a + b + c + d == s + (a + b + c + d)
  {
  }

  /** The branch a call emits directly for `side`. */
  lemma RenderSingle(side: Side, geometry: Ref, matrix: Mat, color: Rgb, next: Ref)
    ensures Render([[side]], geometry, matrix, color, next)
         == [Mesh(geometry, Phong(next, CloneAddGreen(color, GreenStep(side))), Mul(Local(side), matrix))]
  {
    var p: Path := [side];
    assert p[1..] == [];
    assert [p][1..] == [];
    assert MatrixAlong(p, matrix) == MatrixAlong([], Mul(Local(side), matrix));
    assert ColorAlong(p, color) == ColorAlong([], CloneAddGreen(color, GreenStep(side)));
  }

  /**
   The expected meshes for the paths of `level`, split into the four blocks of
   pre-order; `mid` is the second branch's material reference and `last` the
   first one below it.
   */
  lemma RenderPaths(level: nat, geometry: Ref, matrix: Mat, color: Rgb, next: Ref, mid: Ref, last: Ref)
    requires level > 0 && mid == next + 1 + |Paths(level - 1)| && last == mid + 1
    ensures Render(Paths(level), geometry, matrix, color, next)
         == [Mesh(geometry, Phong(next, CloneAddGreen(color, GreenStep(First))), Mul(Local(First), matrix))]
          + Render(Paths(level - 1), geometry, Mul(Local(First), matrix), CloneAddGreen(color, GreenStep(First)), next + 1)
          + [Mesh(geometry, Phong(mid, CloneAddGreen(color, GreenStep(Second))), Mul(Local(Second), matrix))]
          + Render(Paths(level - 1), geometry, Mul(Local(Second), matrix), CloneAddGreen(color, GreenStep(Second)), last)
  {
    var sub := Paths(level - 1);
    var a := [[First]];
    var b := Under(First, sub);
    var c := [[Second]];
    var d := Under(Second, sub);
    assert Paths(level) == a + b + c + d;
    RenderAppend(a + b + c, d, geometry, matrix, color, next, last);
    RenderAppend(a + b, c, geometry, matrix, color, next, mid);
    RenderAppend(a, b, geometry, matrix, color, next, next + 1);
    RenderUnder(First, sub, geometry, matrix, color, next + 1);
    RenderUnder(Second, sub, geometry, matrix, color, last);
    RenderSingle(First, geometry, matrix, color, next);
    RenderSingle(Second, geometry, matrix, color, mid);
  }

  /**
   The reference definition of a call `tree(scene, level, matrix, color)`: the
   scene gains the meshes of all paths of length 1 to `level` in pre-order, and
   one material is allocated per mesh.
   */
  function Expected(w: World, geometry: Ref, level: nat, matrix: Mat, color: Rgb): World
  {
    World(w.scene + Render(Paths(level), geometry, matrix, color, w.next), w.next + |Paths(level)|, w.geometries)
  }

  /** The reference definition follows the same recursion as `tree`. */
  lemma ExpectedUnfold(w: World, geometry: Ref, level: nat, matrix: Mat, color: Rgb)
    requires level > 0
    ensures
      var color1 := CloneAddGreen(color, GreenStep(First));
      var matrix1 := Mul(Local(First), matrix);
      var color2 := CloneAddGreen(color, GreenStep(Second));
      var matrix2 := Mul(Local(Second), matrix);
      var w1 := World(w.scene + [Mesh(geometry, Phong(w.next, color1), matrix1)], w.next + 1, w.geometries);
      var w2 := Expected(w1, geometry, level - 1, matrix1, color1);
      var w3 := World(w2.scene + [Mesh(geometry, Phong(w2.next, color2), matrix2)], w2.next + 1, w2.geometries);
      Expected(w, geometry, level, matrix, color) == Expected(w3, geometry, level - 1, matrix2, color2)
  {
    var sub := Paths(level - 1);
    var n := |sub|;
    var color1 := CloneAddGreen(color, GreenStep(First));
    var matrix1 := Mul(Local(First), matrix);
    var color2 := CloneAddGreen(color, GreenStep(Second));
    var matrix2 := Mul(Local(Second), matrix);
    var mid := w.next + 1 + n;
    var last := mid + 1;
    var mesh1 := Mesh(geometry, Phong(w.next, color1), matrix1);
    var mesh2 := Mesh(geometry, Phong(mid, color2), matrix2);
    var r1 := Render(sub, geometry, matrix1, color1, w.next + 1);
    var r2 := Render(sub, geometry, matrix2, color2, last);
    RenderPaths(level, geometry, matrix, color, w.next, mid, last);
    ConcatRegroup(w.scene, [mesh1], r1, [mesh2], r2);
    assert |Paths(level)| == n + 1 + n + 1;
    assert w.next + |Paths(level)| == last + n;
  }

  /** One unfolding of `tree` for a positive level, given the world `w2` the first recursive call returns. */
  lemma TreeUnfold(w: World, geometry: Ref, level: nat, matrix: Mat, color: Rgb, w2: World)
    requires level > 0
    requires w2 == Tree(World(w.scene + [Mesh(geometry, Phong(w.next, CloneAddGreen(color, GreenStep(First))), Mul(Local(First), matrix))],
                              w.next + 1, w.geometries),
                        geometry, level - 1, Mul(Local(First), matrix), CloneAddGreen(color, GreenStep(First)))
    ensures Tree(w, geometry, level, matrix, color)
         == Tree(World(w2.scene + [Mesh(geometry, Phong(w2.next, CloneAddGreen(color, GreenStep(Second))), Mul(Local(Second), matrix))],
                       w2.next + 1, w2.geometries),
                 geometry, level - 1, Mul(Local(Second), matrix), CloneAddGreen(color, GreenStep(Second)))
  {
  }

  /**
   `tree` emits, after whatever the scene already held, one mesh per path of
   length 1 to `level` in depth-first pre-order, each with the matrix and
   colour its path determines and the next material reference in turn.
   */
  lemma {:induction false} TreeEmitsPaths(w: World, geometry: Ref, level: nat, matrix: Mat, color: Rgb)
    ensures Tree(w, geometry, level, matrix, color) == Expected(w, geometry, level, matrix, color)
    decreases level
  {
    if level == 0 {
      assert w.scene + [] == w.scene;
    } else {
      var matrix1 := Mul(Local(First), matrix);
      var color1 := CloneAddGreen(color, GreenStep(First));
      var matrix2 := Mul(Local(Second), matrix);
      var color2 := CloneAddGreen(color, GreenStep(Second));
      var w1 := World(w.scene + [Mesh(geometry, Phong(w.next, color1), matrix1)], w.next + 1, w.geometries);
      var w2 := Tree(w1, geometry, level - 1, matrix1, color1);
      var w3 := World(w2.scene + [Mesh(geometry, Phong(w2.next, color2), matrix2)], w2.next + 1, w2.geometries);
      TreeUnfold(w, geometry, level, matrix, color, w2);
      TreeEmitsPaths(w1, geometry, level - 1, matrix1, color1);
      TreeEmitsPaths(w3, geometry, level - 1, matrix2, color2);
      ExpectedUnfold(w, geometry, level, matrix, color);
    }
  }
}
