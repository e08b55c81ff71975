/**
 Properties of `tree`, all derived from the path description: how many
 branches it emits, that it only appends to the scene, in which order the
 branches come, and which matrix and colour each branch has.
 */
module TreeProperties {
  import opened Transforms
  import opened Colors
  import opened SceneGraph
  import opened FractalTree
  import opened TreePaths

  /** Paths: how many there are, which ones, and in which order. */

  lemma {:induction false} PathsCount(n: nat)
    ensures |Paths(n)| == BranchCount(n)
  {
    if n > 0 {
      PathsCount(n - 1);
    }
  }

  lemma {:induction false} UnderIndex(side: Side, ps: seq<Path>, i: nat)
    requires i < |ps|
    ensures Under(side, ps)[i] == [side] + ps[i]
    decreases |ps|
  {
    if i > 0 {
      UnderIndex(side, ps[1..], i - 1);
    }
  }

  /** Where each path sits in the pre-order enumeration of level `n`. */
  lemma PathsIndex(n: nat, i: nat)
    requires n > 0 && i < |Paths(n)|
    ensures var m := |Paths(n - 1)|;
            && (i == 0 ==> Paths(n)[i] == [First])
            && (1 <= i <= m ==> Paths(n)[i] == [First] + Paths(n - 1)[i - 1])
            && (i == m + 1 ==> Paths(n)[i] == [Second])
            && (m + 2 <= i ==> Paths(n)[i] == [Second] + Paths(n - 1)[i - m - 2])
  {
    var sub := Paths(n - 1);
    var m := |sub|;
    if 1 <= i <= m {
      UnderIndex(First, sub, i - 1);
    } else if m + 2 <= i {
      UnderIndex(Second, sub, i - m - 2);
    }
  }

  /** Every emitted path has length 1 to `n`. */
  lemma {:induction false} PathsLengths(n: nat, i: nat)
    requires i < |Paths(n)|
    ensures 1 <= |Paths(n)[i]| <= n
  {
    var m := |Paths(n - 1)|;
    PathsIndex(n, i);
    if 1 <= i <= m {
      PathsLengths(n - 1, i - 1);
    } else if m + 2 <= i {
      PathsLengths(n - 1, i - m - 2);
    }
  }

  /** Every path of length 1 to `n` is emitted. */
  lemma {:induction false} PathsComplete(n: nat, p: Path)
    requires 1 <= |p| <= n
    ensures p in Paths(n)
  {
    var m := |Paths(n - 1)|;
    if |p| == 1 {
      if p[0] == First {
        PathsIndex(n, 0);
        assert Paths(n)[0] == p;
      } else {
        PathsIndex(n, m + 1);
        assert Paths(n)[m + 1] == p;
      }
    } else {
      PathsComplete(n - 1, p[1..]);
      var j :| 0 <= j < m && Paths(n - 1)[j] == p[1..];
      assert p == [p[0]] + p[1..];
      if p[0] == First {
        PathsIndex(n, 1 + j);
        assert Paths(n)[1 + j] == p;
      } else {
        PathsIndex(n, m + 2 + j);
        assert Paths(n)[m + 2 + j] == p;
      }
    }
  }

  /** The paths `tree` emits for `level` are exactly those of length 1 to `level`. */
  lemma PathsMembership(n: nat, p: Path)
    ensures p in Paths(n) <==> 1 <= |p| <= n
  {
    if p in Paths(n) {
      var i :| 0 <= i < |Paths(n)| && Paths(n)[i] == p;
      PathsLengths(n, i);
    }
    if 1 <= |p| <= n {
      PathsComplete(n, p);
    }
  }

  /**
   Depth-first pre-order on paths: a branch comes before every branch below
   it, and everything below the first side comes before the second side.
   */
  predicate Before(p: Path, q: Path)
    decreases |p|
  {
    if p == [] then q != []
    else if q == [] then false
    else if p[0] != q[0] then p[0] == First
    else Before(p[1..], q[1..])
  }

  lemma BeforeCons(side: Side, p: Path, q: Path)
    ensures Before([side] + p, [side] + q) == Before(p, q)
  {
    assert ([side] + p)[1..] == p;
    assert ([side] + q)[1..] == q;
  }

  lemma {:induction false} BeforeIrreflexive(p: Path)
    ensures !Before(p, p)
    decreases |p|
  {
    if p != [] {
      BeforeIrreflexive(p[1..]);
    }
  }

  /** A branch comes before the branches below it. */
  lemma BeforeDescendant(side: Side, q: Path)
    requires q != []
    ensures Before([side], [side] + q)
  {
    BeforeCons(side, [], q);
    assert [side] + [] == [side];
  }

  /** Branches below the first side come before those below the second. */
  lemma BeforeAcross(p: Path, q: Path)
    requires p != [] && q != [] && p[0] == First && q[0] == Second
    ensures Before(p, q)
  {
  }

  /** `tree` emits its branches in depth-first pre-order. */
  lemma {:induction false} PathsPreorder(n: nat, i: nat, j: nat)
    requires i < j < |Paths(n)|
    ensures Before(Paths(n)[i], Paths(n)[j])
    decreases n, 1
  {
    var m := |Paths(n - 1)|;
    if j <= m {
      PreorderBlock(n, First, i, j, 1);
    } else if i <= m {
      PreorderAcross(n, i, j);
    } else {
      PreorderBlock(n, Second, i, j, m + 2);
    }
  }

  /** Two branches below the same side of the call: the side's own branch first, then in recursive order. */
  lemma {:induction false} PreorderBlock(n: nat, side: Side, i: nat, j: nat, start: nat)
    requires n > 0 && i < j < |Paths(n)|
    requires side == First ==> start == 1 && j < start + |Paths(n - 1)|
    requires side == Second ==> start == |Paths(n - 1)| + 2 && start - 1 <= i
    ensures Before(Paths(n)[i], Paths(n)[j])
    decreases n, 0
  {
    var sub := Paths(n - 1);
    assert Paths(n)[j] == [side] + sub[j - start] by { PathsIndex(n, j); }
    if i == start - 1 {
      assert Paths(n)[i] == [side] by { PathsIndex(n, i); }
      PreorderOwnBranch(n, side, j - start);
    } else {
      assert Paths(n)[i] == [side] + sub[i - start] by { PathsIndex(n, i); }
      PathsPreorder(n - 1, i - start, j - start);
      BeforeCons(side, sub[i - start], sub[j - start]);
    }
  }

  lemma PreorderOwnBranch(n: nat, side: Side, k: nat)
    requires n > 0 && k < |Paths(n - 1)|
    ensures Before([side], [side] + Paths(n - 1)[k])
  {
    PathsLengths(n - 1, k);
    BeforeDescendant(side, Paths(n - 1)[k]);
  }

  /** A branch below the first side against one below the second. */
  lemma PreorderAcross(n: nat, i: nat, j: nat)
    requires n > 0 && i <= |Paths(n - 1)| < j < |Paths(n)|
    ensures Before(Paths(n)[i], Paths(n)[j])
  {
    var p := Paths(n)[i];
    var q := Paths(n)[j];
    assert p[0] == First by { PathsIndex(n, i); }
    assert q[0] == Second by { PathsIndex(n, j); }
    BeforeAcross(p, q);
  }

  /** No path is emitted twice. */
  lemma PathsDistinct(n: nat, i: nat, j: nat)
    requires i < j < |Paths(n)|
    ensures Paths(n)[i] != Paths(n)[j]
  {
    PathsPreorder(n, i, j);
    BeforeIrreflexive(Paths(n)[i]);
  }

  /** Matrices and colours along a path. */

  lemma {:induction false} ChainCons(side: Side, p: Path)
    ensures Chain([side] + p) == Mul(Chain(p), Local(side))
    decreases |p|
  {
    var q := [side] + p;
    if p == [] {
      assert q[..|q| - 1] == [];
      MulIdentity(Local(side));
    } else {
      var init := p[..|p| - 1];
      assert q[|q| - 1] == p[|p| - 1];
      assert q[..|q| - 1] == [side] + init;
      ChainCons(side, init);
      MulAssociative(Local(p[|p| - 1]), Chain(init), Local(side));
    }
  }

  /** The branch at path `k1 ... kd` below a call given `matrix` has matrix `L_kd * ... * L_k1 * matrix`. */
  lemma {:induction false} MatrixAlongChain(p: Path, matrix: Mat)
    ensures MatrixAlong(p, matrix) == Mul(Chain(p), matrix)
    decreases |p|
  {
    if p == [] {
      MulIdentity(matrix);
    } else {
      MatrixAlongChain(p[1..], Mul(Local(p[0]), matrix));
      ChainCons(p[0], p[1..]);
      assert [p[0]] + p[1..] == p;
      MulAssociative(Chain(p[1..]), Local(p[0]), matrix);
    }
  }

  lemma {:induction false} ColorAlongGreen(p: Path, color: Rgb)
    ensures ColorAlong(p, color) == Rgb(color.r, color.g + GreenSum(p), color.b)
    decreases |p|
  {
    if p != [] {
      ColorAlongGreen(p[1..], CloneAddGreen(color, GreenStep(p[0])));
    }
  }

  lemma {:induction false} GreenSumSnoc(p: Path, side: Side)
    ensures GreenSum(p + [side]) == GreenSum(p) + GreenStep(side)
    decreases |p|
  {
    if p == [] {
      assert ([] + [side])[1..] == [];
    } else {
      assert (p + [side])[1..] == p[1..] + [side];
      GreenSumSnoc(p[1..], side);
    }
  }

  /**
   A branch's matrix is its own local transform times its parent's world
   matrix, and its colour is its parent's with green raised by its own step.
   */
  lemma ChildOfBranch(p: Path, side: Side, matrix: Mat, color: Rgb)
    ensures MatrixAlong(p + [side], matrix) == Mul(Local(side), MatrixAlong(p, matrix))
    ensures ColorAlong(p + [side], color) == CloneAddGreen(ColorAlong(p, color), GreenStep(side))
  {
    var q := p + [side];
    assert q[..|q| - 1] == p;
    MatrixAlongChain(q, matrix);
    MatrixAlongChain(p, matrix);
    MulAssociative(Local(side), Chain(p), matrix);
    ColorAlongGreen(q, color);
    ColorAlongGreen(p, color);
    GreenSumSnoc(p, side);
  }

  /** The green gained along a path lies between the smaller and the larger step per level. */
  lemma {:induction false} GreenSumBounds(p: Path)
    ensures (|p| as real) * GreenStep(Second) <= GreenSum(p) <= (|p| as real) * GreenStep(First)
    decreases |p|
  {
    if p != [] {
      GreenSumBounds(p[1..]);
      assert (|p| as real) * GreenStep(Second) == GreenStep(Second) + (|p[1..]| as real) * GreenStep(Second);
      assert (|p| as real) * GreenStep(First) == GreenStep(First) + (|p[1..]| as real) * GreenStep(First);
    }
  }

  /** What `tree` does to the scene and the allocator. */

  lemma {:induction false} RenderIndex(ps: seq<Path>, geometry: Ref, matrix: Mat, color: Rgb, next: Ref, i: nat)
    requires i < |ps|
    ensures Render(ps, geometry, matrix, color, next)[i]
         == Mesh(geometry, Phong(next + i, ColorAlong(ps[i], color)), MatrixAlong(ps[i], matrix))
    decreases |ps|
  {
    if i > 0 {
      RenderIndex(ps[1..], geometry, matrix, color, next + 1, i - 1);
    }
  }

  /** A call on level 0 changes nothing, whatever the matrix and colour. */
  lemma TreeLevelZero(w: World, geometry: Ref, matrix: Mat, color: Rgb)
    ensures Tree(w, geometry, 0, matrix, color) == w
  {
  }

  /**
   A call only appends to the scene: it adds `2^(level+1) - 2` meshes, all on
   the shared geometry, each with a material allocated for it alone, and
   creates no geometry.
   */
  lemma TreeGrowth(w: World, geometry: Ref, level: nat, matrix: Mat, color: Rgb)
    ensures var w' := Tree(w, geometry, level, matrix, color);
            && |w'.scene| == |w.scene| + BranchCount(level)
            && w'.scene[..|w.scene|] == w.scene
            && w'.next == w.next + BranchCount(level)
            && w'.geometries == w.geometries
            && forall i :: |w.scene| <= i < |w'.scene| ==>
                 && w'.scene[i].Mesh?
                 && w'.scene[i].geometry == geometry
                 && w'.scene[i].material.id == w.next + (i - |w.scene|)
  {
    var w' := Tree(w, geometry, level, matrix, color);
    var ps := Paths(level);
    TreeEmitsPaths(w, geometry, level, matrix, color);
    PathsCount(level);
    forall i | |w.scene| <= i < |w'.scene|
      ensures w'.scene[i].Mesh? && w'.scene[i].geometry == geometry
      ensures w'.scene[i].material.id == w.next + (i - |w.scene|)
    {
      RenderIndex(ps, geometry, matrix, color, w.next, i - |w.scene|);
    }
  }

  /**
   The `i`-th branch a call emits: the `i`-th path in pre-order determines
   its matrix, `L_kd * ... * L_k1 * matrix`, and its colour, the parent's with
   green raised by the steps along the path.
   */
  lemma TreeBranch(w: World, geometry: Ref, level: nat, matrix: Mat, color: Rgb, i: nat)
    requires i < BranchCount(level)
    ensures i < |Paths(level)|
    ensures var p := Paths(level)[i];
            var scene := Tree(w, geometry, level, matrix, color).scene;
            && 1 <= |p| <= level
            && |w.scene| + i < |scene|
            && scene[|w.scene| + i]
               == Mesh(geometry, Phong(w.next + i, Rgb(color.r, color.g + GreenSum(p), color.b)), Mul(Chain(p), matrix))
  {
    PathsCount(level);
    var p := Paths(level)[i];
    PathsLengths(level, i);
    TreeEmitsPaths(w, geometry, level, matrix, color);
    RenderIndex(Paths(level), geometry, matrix, color, w.next, i);
    MatrixAlongChain(p, matrix);
    ColorAlongGreen(p, color);
  }

  /** What a call emits into an empty scene. */
  lemma TreeFromEmpty(next: Ref, geometries: map<Ref, Cylinder>, geometry: Ref, level: nat, matrix: Mat, color: Rgb)
    ensures Tree(World([], next, geometries), geometry, level, matrix, color).scene
         == Render(Paths(level), geometry, matrix, color, next)
  {
    TreeEmitsPaths(World([], next, geometries), geometry, level, matrix, color);
    assert [] + Render(Paths(level), geometry, matrix, color, next) == Render(Paths(level), geometry, matrix, color, next);
  }

  /** The expected meshes of a call in the four blocks of pre-order, with `n` the number of branches below each side. */
  lemma RenderBlocks(level: nat, geometry: Ref, matrix: Mat, color: Rgb, next: Ref, n: nat,
                     r: seq<Object3D>, sub1: seq<Object3D>, sub2: seq<Object3D>)
    requires level > 0 && n == BranchCount(level - 1)
    requires r == Render(Paths(level), geometry, matrix, color, next)
    requires sub1 == Render(Paths(level - 1), geometry, Mul(Local(First), matrix), CloneAddGreen(color, GreenStep(First)), next + 1)
    requires sub2 == Render(Paths(level - 1), geometry, Mul(Local(Second), matrix), CloneAddGreen(color, GreenStep(Second)), next + 2 + n)
    ensures r == [Mesh(geometry, Phong(next, CloneAddGreen(color, GreenStep(First))), Mul(Local(First), matrix))] + sub1
               + [Mesh(geometry, Phong(next + 1 + n, CloneAddGreen(color, GreenStep(Second))), Mul(Local(Second), matrix))] + sub2
  {
    assert |Paths(level - 1)| == n by {
      PathsCount(level - 1);
    }
    RenderPaths(level, geometry, matrix, color, next, next + 1 + n, next + 2 + n);
  }

  /** What a call appends to the scene. */
  lemma TreeScene(w: World, geometry: Ref, level: nat, matrix: Mat, color: Rgb)
    ensures Tree(w, geometry, level, matrix, color).scene
         == w.scene + Render(Paths(level), geometry, matrix, color, w.next)
  {
    TreeEmitsPaths(w, geometry, level, matrix, color);
  }

  /**
   The order of emission: the first branch, everything its recursive call
   emits, the second branch, everything its recursive call emits. Each
   recursive call is given the world matrix of the branch just emitted.
   */
  lemma TreeBlocks(w: World, geometry: Ref, level: nat, matrix: Mat, color: Rgb)
    requires level > 0
    ensures
      var color1 := CloneAddGreen(color, GreenStep(First));
      var matrix1 := Mul(Local(First), matrix);
      var color2 := CloneAddGreen(color, GreenStep(Second));
      var matrix2 := Mul(Local(Second), matrix);
      var n := BranchCount(level - 1);
      var sub1 := Tree(World([], w.next + 1, w.geometries), geometry, level - 1, matrix1, color1).scene;
      var sub2 := Tree(World([], w.next + 2 + n, w.geometries), geometry, level - 1, matrix2, color2).scene;
      Tree(w, geometry, level, matrix, color).scene
      == w.scene + [Mesh(geometry, Phong(w.next, color1), matrix1)] + sub1
                 + [Mesh(geometry, Phong(w.next + 1 + n, color2), matrix2)] + sub2
  {
    var n := BranchCount(level - 1);
    var matrix1 := Mul(Local(First), matrix);
    var color1 := CloneAddGreen(color, GreenStep(First));
    var matrix2 := Mul(Local(Second), matrix);
    var color2 := CloneAddGreen(color, GreenStep(Second));
    var r := Render(Paths(level), geometry, matrix, color, w.next);
    var sub1 := Tree(World([], w.next + 1, w.geometries), geometry, level - 1, matrix1, color1).scene;
    var sub2 := Tree(World([], w.next + 2 + n, w.geometries), geometry, level - 1, matrix2, color2).scene;
    assert Tree(w, geometry, level, matrix, color).scene == w.scene + r by {
      TreeScene(w, geometry, level, matrix, color);
    }
    assert sub1 == Render(Paths(level - 1), geometry, matrix1, color1, w.next + 1) by {
      TreeFromEmpty(w.next + 1, w.geometries, geometry, level - 1, matrix1, color1);
    }
    assert sub2 == Render(Paths(level - 1), geometry, matrix2, color2, w.next + 2 + n) by {
      TreeFromEmpty(w.next + 2 + n, w.geometries, geometry, level - 1, matrix2, color2);
    }
    RenderBlocks(level, geometry, matrix, color, w.next, n, r, sub1, sub2);
    ConcatRegroup(w.scene, [Mesh(geometry, Phong(w.next, color1), matrix1)], sub1,
                  [Mesh(geometry, Phong(w.next + 1 + n, color2), matrix2)], sub2);
  }
}
