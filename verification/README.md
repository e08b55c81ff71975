# Fractal tree generator of the Matrix demo

The Matrix demo builds a three.js scene: two lights, a brown cylinder as the
trunk, and a fractal of branches. The branches come from the recursive
function `tree(scene, level, matrix, color)` defined inside `App._setupModel`.
A call with a positive level does the following, once for each of two sides:

- it clones the parent colour and raises its green by `0.7 / levels` or
  `0.64 / levels`;
- it builds a fixed local transform and multiplies the parent matrix into it;
- it adds a mesh on the one shared cylinder geometry, with a new material;
- it recurses on `level - 1`.

`_setupModel` seeds the generator with the trunk's matrix and colour and
`levels = 12`.

The model is written in Dafny and split into these modules:

- `Transforms`: three.js `Matrix4`, kept symbolic. A matrix is the word of
  elementary transforms whose product it is. Multiplication is concatenation
  and the identity is the empty word. Every equation proved between words also
  holds for real 4x4 matrices, since their product is associative with the
  identity as unit. Facts about words that are not equations, such as two words
  differing or a word ending with a given factor, are about the symbolic
  products only. `Multiply` records the library's in-place `multiply`: the
  receiver becomes `receiver * m`, and the result is that new value.
- `Colors`: `Color` with real channels, and `clone()` followed by `g += d`.
- `SceneGraph`: the scene's children in insertion order, the objects they
  refer to, and a counter that hands out object references. A new material or
  geometry gets the next reference.
- `FractalTree`: the constants `partWidth`, `partHeight` and `levels`, the two
  local transforms, and `Tree`, the generator itself.
- `TreePaths`: an independent reference definition (`Expected`).
  - Each branch is named by the path of sides leading to it from the seed call.
  - `Paths(n)` lists every path of length 1 to `n` in depth-first pre-order.
  - A branch's matrix and colour follow from its path alone (`MatrixAlong`,
    `ColorAlong`).
  - `TreeEmitsPaths` proves that `Tree` and `Expected` agree for every world,
    level, matrix and colour.
- `TreeProperties`: what follows from that agreement:
  - counting, add-only growth, the shared geometry and fresh materials;
  - pre-order, completeness and distinctness of the emitted paths;
  - the matrix product and the green sum along a path;
  - the block structure of one call.
- `App`: `_setupLight`, `_setupModel`, and the constructor's scene work
  (`Startup`).

Why the model passes the world matrix to the recursion: `multiply` overwrites
its receiver. At Matrix/Matrix.js:131 and 156, `newMatrix.multiply(matrix)`
turns the local transform object into the branch's world matrix, and that same
object is passed to the recursive call at lines 137 and 160. Passing the local
transform down instead would change every branch below the first level. A branch reached by the sides `k1 ... kd` has
matrix `L_kd * ... * L_k1 * T(0, -100, 0)`, where the last factor is the
trunk's translation.

## Model

| member | source | states |
|---|---|---|
| FractalTree.LocalTransforms | Matrix/Matrix.js:117-154 | The first branch's local transform is RotY(pi/2) T(25,0,0) RotZ(-pi/4) S(0.75) T(0,200,0), in that order. Each side's transform is the mirror image of the other's: the X translation and the Z rotation change sign, every other factor is the same. As words of elementary transforms the two are different. |
| FractalTree.MirrorInvolutive | Matrix/Matrix.js:146-154 | Mirroring a word of elementary transforms twice gives back the word, so the sign changes between the two branch transforms go both ways. |
| TreeProperties.TreeLevelZero | Matrix/Matrix.js:106 | A call with level 0 returns the world unchanged (scene, allocator, geometries) for every matrix and colour. |
| TreePaths.TreeEmitsPaths | Matrix/Matrix.js:105-161 | A call appends one mesh per path of length 1 to `level`, in pre-order, after what the scene held. Each mesh uses the shared geometry and the next material reference in turn. Its matrix and colour are those its path determines from the call's matrix and colour. The allocator advances by the number of meshes, and no geometry is created. |
| TreePaths.ExpectedUnfold | Matrix/Matrix.js:105-160 | The reference definition follows the code's recursion. Its result equals: emit the first branch, continue with the level-1 reference from the first branch's matrix and colour, emit the second branch, then continue with the level-1 reference from the second branch's matrix and colour. |
| TreeProperties.PathsCount | Matrix/Matrix.js:105-160 | Level `n` has exactly `2^(n+1) - 2` paths, two per call over all recursive calls. |
| TreeProperties.PathsMembership | Matrix/Matrix.js:105-160 | A path is emitted for level `n` if and only if its length is between 1 and `n`. |
| TreeProperties.PathsLengths | Matrix/Matrix.js:105-160 | Every emitted path has length between 1 and `n`: no branch lies deeper than the level the seed call was given. |
| TreeProperties.PathsPreorder | Matrix/Matrix.js:134-160 | When branch `i` is emitted before branch `j`, either branch `i` is an ancestor of branch `j`, or at the first step where their paths differ, `i` takes the first side and `j` the second. |
| TreeProperties.PathsDistinct | Matrix/Matrix.js:105-160 | No path is emitted twice. |
| TreeProperties.MatrixAlongChain | Matrix/Matrix.js:131-160 | The world matrix of the branch at path `k1 ... kd`, below a call given `matrix`, is `L_kd * ... * L_k1 * matrix`. |
| TreeProperties.ChildOfBranch | Matrix/Matrix.js:110-160 | A branch's matrix is its own local transform times its parent's world matrix. Its colour is the parent's with only green raised by its own step. |
| TreeProperties.ColorAlongGreen | Matrix/Matrix.js:110-142 | Red and blue of a branch equal those of the call's colour. Green is the call's green plus the sum of the steps along the path. |
| TreeProperties.GreenSumBounds | Matrix/Matrix.js:112-142 | The green gained along a path of length `d` is at least `d * 0.64 / levels` and at most `d * 0.7 / levels`. |
| TreeProperties.TreeGrowth | Matrix/Matrix.js:105-160 | A call only appends: `2^(level+1) - 2` meshes after the old scene, which is kept as it was. Every new mesh uses the one geometry passed in. The `k`-th new mesh gets material `next + k`. The allocator advances by the same count, and the geometries are unchanged. |
| TreeProperties.TreeBranch | Matrix/Matrix.js:105-160 | The `i`-th branch emitted is at the `i`-th path `p` in pre-order. Its depth is 1 to `level` and its material is `next + i`. Its matrix is `Chain(p) * matrix`. Its colour is the call's colour with only green raised, by the sum along `p`. |
| TreeProperties.TreeBlocks | Matrix/Matrix.js:134-160 | A call's additions are, in order: the first branch; everything the recursive call on the first branch's world matrix and colour emits; the second branch, whose material comes after all of those; then everything the recursive call on the second branch's world matrix and colour emits. |
| App.SetupLightContents | Matrix/Matrix.js:69-84 | `_setupLight` keeps the scene and appends a white directional light of intensity 1 at (-1, 2, 4), then a white ambient light of intensity 1. It creates no geometry or material. |
| App.SetupModelContents | Matrix/Matrix.js:86-165 | `_setupModel` keeps the scene and creates one geometry, a cylinder (32.5, 50, 200, 32). It appends the trunk on that geometry, with its own material of the trunk colour and the translation half the height down. Then it appends `2^13 - 2` branch meshes, all on the same geometry, each with the next material. |
| App.StartupCounts | Matrix/Matrix.js:26-35 | After the constructor's scene work the scene holds 8193 children: the two lights, the trunk, and `2^13 - 2` branches. Exactly one geometry exists, and 8192 geometry and material references have been handed out: one geometry and 8191 materials. |
| App.StartupBranch | Matrix/Matrix.js:92-165 | The `i`-th branch after start-up is child `3 + i` of the scene, at the `i`-th path `p`, with depth 1 to 12. Its matrix is `Chain(p)` times the trunk's matrix. Its colour is the trunk's `#a04500` with only green raised, by the sum along `p`. |
| App.TrunkLastFactor | Matrix/Matrix.js:97-165 | A corollary of StartupBranch, because the last factor of any product `X * T(0, -100, 0)` is that translation: as a word of elementary transforms, every branch's matrix ends with the trunk's translation T(0, -100, 0). |
| App.GreenGainBounds | Matrix/Matrix.js:110-163 | A corollary of GreenSumBounds with `levels = 12` evaluated: each step raises green by exactly 0.7/12 or exactly 0.64/12. So the green gained along a path `p` lies between `|p| * 0.64/12` and `|p| * 0.7/12`. |

## Left out

- Rendering, the WebGL renderer, lighting and shading: these are library calls with no behaviour in the scene model.
- Numeric matrix entries: rotations, translations and scales stay symbolic, so no trigonometry and no floating point appear. Equations between words hold for every associative matrix product with a unit.
- MatrixAlongChain, ChildOfBranch, TreeBranch, BranchAfterTrunk and StartupBranch regroup a branch's matrix as `Chain(p) * matrix`. This holds for exact real matrices. The library multiplies doubles, which is not associative, so its computed matrices match these regrouped forms only up to rounding. TreeEmitsPaths keeps the code's own grouping, `L_k * (parent)`, step by step, and is not affected.
- Light and mesh objects have no identity in the model. `_setupLight` creates two light objects and every branch creates a `Mesh` object; these appear only as scene children, by value. The reference counter numbers only geometries and materials, and its numbers are the model's own, not the library's object `id`s.
- Tree: the level is a `nat`. In the source, a negative or fractional level never meets `level === 0` and the recursion does not end. The only call passes 12 (Matrix/Matrix.js:163-165), so no run of the program reaches that case.
- Channel values are exact reals. JavaScript doubles and their rounding are not modelled, and no channel is ever clamped, so green may exceed 1.
- Colour management: `Color("#a04500")` is modelled as the bytes divided by 255. Any sRGB-to-linear conversion the library applies to hex colours is outside the model.
- `matrixAutoUpdate = false` is not modelled. It only stops the library from recomputing the matrices that the model already treats as final.
- The camera, `resize`, the render loop with `requestAnimationFrame`, the orbit controls and the `window` hooks are left out. They do not touch the scene's children.
- The renderer, scene and camera objects the constructor creates are not modelled. The model numbers geometries and materials on its own, so `Startup` leaves the first free reference open as a parameter.
- The scratch matrix `tempMatrix` that each call reuses is not modelled. Each `make...` call overwrites it before the following `multiply` reads it, so each elementary transform enters the product as itself.
