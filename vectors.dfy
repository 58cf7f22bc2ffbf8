/** The small float and int vectors the uniform blocks are made of, one lane per field. */
module Vectors {
  datatype Vec2 = Vec2(x: real, y: real)
  datatype Vec3 = Vec3(x: real, y: real, z: real)
  datatype Vec4 = Vec4(x: real, y: real, z: real, w: real)
  datatype IVec4 = IVec4(x: int, y: int, z: int, w: int)
}
