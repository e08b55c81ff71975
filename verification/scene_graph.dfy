/**
 The part of the rendering library's scene graph that the tree generator
 touches: the ordered children of the scene, which only ever grow by `add`,
 and the geometry and material objects the meshes refer to. Geometries and
 materials get references handed out in allocation order; lights and meshes
 are values without an identity of their own.
 */
module SceneGraph {
  import opened Transforms
  import opened Colors

  /** The identity of an allocated geometry or material object. */
  type Ref = nat

  /** `CylinderGeometry(radiusTop, radiusBottom, height, radialSegments)`. */
  datatype Cylinder = Cylinder(radiusTop: real, radiusBottom: real, height: real, radialSegments: nat)

  /** A `MeshPhongMaterial`, with the identity of the material object and its colour. */
  datatype Material = Phong(id: Ref, color: Rgb)

  /** The children a scene can hold. Light colours are written as 24-bit hex values. */
  datatype Object3D =
    | DirectionalLight(lightColor: int, intensity: real, px: real, py: real, pz: real)
    | AmbientLight(lightColor: int, intensity: real)
    | Mesh(geometry: Ref, material: Material, matrix: Mat)

  /**
   The state the generator acts on: the scene's children in insertion order,
   the next unused object reference, and the geometry objects created so far.
   */
  datatype World = World(scene: seq<Object3D>, next: Ref, geometries: map<Ref, Cylinder>)

  /** `scene.add(obj)` for an object that has no parent yet: it is appended. */
  function Add(w: World, obj: Object3D): World
  {
    w.(scene := w.scene + [obj])
  }

  /** `new MeshPhongMaterial({ color })`: a material object with a fresh identity. */
  function NewMaterial(w: World, color: Rgb): (Material, World)
  {
    (Phong(w.next, color), w.(next := w.next + 1))
  }

  /** `new CylinderGeometry(...)`: a geometry object with a fresh identity. */
  function NewGeometry(w: World, shape: Cylinder): (Ref, World)
  {
    (w.next, World(w.scene, w.next + 1, w.geometries[w.next := shape]))
  }
}
