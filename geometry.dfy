/**
 * The floating-point geometry the renderer relies on, passed in as total
 * functions: the matrix action on a triangle, matrix products, the camera's
 * view and projection matrices, the scene's conversion to view space,
 * the point-in-triangle test, barycentric coordinates, perspective-correct
 * depth, and the depth pyramid's visibility query.
 */
module Geometry {
  import opened Triangles

  /** A 4x4 matrix by its 16 entries. */
  datatype Mat4 = Mat4(entries: seq<real>)

  /** The parameters that Camera::init receives and the camera keeps. */
  datatype Camera = Camera(pos: Vec3, fovy: real, aspectRatio: real,
                           znear: real, zfar: real, gaze: Vec3, up: Vec3)

  /**
   * A depth-buffer entry. Entries start "infinitely far" (negative
   * infinity), so any computed depth is nearer than Far.
   */
  datatype Depth = Far | At(z: real)

  /** real_z > z(i, j): the new depth is nearer than the stored one. */
  predicate Nearer(z: real, d: Depth) {
    d.Far? || z > d.z
  }

  datatype Bary = Bary(ca: real, cb: real, cc: real)

  datatype Geometry = Geometry(
    transform: (Triangle, Mat4) -> Triangle,            // Triangle * mat4
    mul: (Mat4, Mat4) -> Mat4,                          // matrix product
    viewOf: Camera -> Mat4,                             // view matrix of the camera
    projectionOf: Camera -> Mat4,                       // perspective projection of the camera
    toViewspace: (seq<Triangle>, Mat4, Vec3) -> seq<Triangle>,  // Scene::to_viewspace
    contains: (Triangle, real, real) -> bool,           // Triangle::contains
    barycentric: (Triangle, real, real) -> Bary,        // t % vec3{x, y, 0}
    viewDepth: (Triangle, Bary) -> real,                // 1 / (ca/a.z + cb/b.z + cc/c.z)
    visible: (seq<seq<Depth>>, seq<Triangle>, Triangle) -> bool  // Pyramid::visible
  )
}
