/**
 Affine transforms as the rendering library's `Matrix4` provides them, kept
 symbolic. A matrix is represented by the word of elementary transforms whose
 product it is: multiplication is concatenation and the identity is the empty
 word. This is the free monoid over the elementary transforms, so every
 equation between two matrices proved here also holds for real 4x4 matrices,
 whose product is associative with the identity as unit. The library computes
 in floating point, where the product is not associative: an equation that
 regroups a product holds for its computed matrices only up to rounding. No
 entry of any matrix, and so no trigonometry or floating point, is ever
 computed here.
 */
module Transforms {

  /** One elementary transform. Rotation angles are written as multiples of pi. */
  datatype Elementary =
    | Translation(x: real, y: real, z: real)
    | RotationY(piTimes: real)
    | RotationZ(piTimes: real)
    | Scale(sx: real, sy: real, sz: real)

  /** A 4x4 affine matrix, as the product of the listed elementary transforms, left to right. */
  datatype Mat = Product(factors: seq<Elementary>)

  /** The value of a freshly constructed `Matrix4`. */
  const Identity: Mat := Product([])

  /** Matrix product `a * b`. */
  function Mul(a: Mat, b: Mat): Mat
  {
    Product(a.factors + b.factors)
  }

  lemma MulAssociative(a: Mat, b: Mat, c: Mat)
    ensures Mul(Mul(a, b), c) == Mul(a, Mul(b, c))
  {
  }

  lemma MulIdentity(a: Mat)
    ensures Mul(Identity, a) == a && Mul(a, Identity) == a
  {
  }

  /**
   `receiver.multiply(m)` of the rendering library. This is an assumption about
   code outside the model: the call overwrites its receiver with `receiver * m`
   and returns the receiver itself, so after the call every name bound to the
   receiver object denotes the product. The result is that new value.
   */
  function Multiply(receiver: Mat, m: Mat): (after: Mat)
  {
    Mul(receiver, m)
  }

  /**
   `makeTranslation`, `makeRotationY`, `makeRotationZ` and `makeScale` overwrite
   their receiver with one elementary transform, whatever it held before, and
   return it. The source reuses one scratch matrix for all of them, which is
   harmless because every `multiply` reads the scratch value before the next
   `make...` call overwrites it.
   */
  function MakeTranslation(x: real, y: real, z: real): Mat
  {
    Product([Translation(x, y, z)])
  }

  function MakeRotationY(piTimes: real): Mat
  {
    Product([RotationY(piTimes)])
  }

  function MakeRotationZ(piTimes: real): Mat
  {
    Product([RotationZ(piTimes)])
  }

  function MakeScale(sx: real, sy: real, sz: real): Mat
  {
    Product([Scale(sx, sy, sz)])
  }
}
