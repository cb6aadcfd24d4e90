/** OpenGL enumerant values and the C++ arithmetic types that the renderer maps
    onto them. Values are those of the OpenGL 4.6 Core Profile headers. */
module GlTypes {

  /** GLuint / GLenum: unsigned 32-bit. */
  const TwoTo32: int := 0x1_0000_0000
  type U32 = x: int | 0 <= x < TwoTo32

  // Data types (OpenGL 4.6 Core Profile, table 8.2)
  const GL_BYTE: U32 := 0x1400
  const GL_UNSIGNED_BYTE: U32 := 0x1401
  const GL_SHORT: U32 := 0x1402
  const GL_UNSIGNED_SHORT: U32 := 0x1403
  const GL_INT: U32 := 0x1404
  const GL_UNSIGNED_INT: U32 := 0x1405
  const GL_FLOAT: U32 := 0x1406
  const GL_DOUBLE: U32 := 0x140A

  // Buffer binding targets
  const GL_ARRAY_BUFFER: U32 := 0x8892
  const GL_ELEMENT_ARRAY_BUFFER: U32 := 0x8893

  // Shader stages
  const GL_FRAGMENT_SHADER: U32 := 0x8B30
  const GL_VERTEX_SHADER: U32 := 0x8B31
  const GL_GEOMETRY_SHADER: U32 := 0x8DD9
  const GL_TESS_EVALUATION_SHADER: U32 := 0x8E87
  const GL_TESS_CONTROL_SHADER: U32 := 0x8E88
  const GL_COMPUTE_SHADER: U32 := 0x91B9

  // Debug output (OpenGL 4.6 Core Profile, section 20.2, tables 20.1 to 20.3)
  const GL_DEBUG_SOURCE_API: U32 := 0x8246
  const GL_DEBUG_SOURCE_WINDOW_SYSTEM: U32 := 0x8247
  const GL_DEBUG_SOURCE_SHADER_COMPILER: U32 := 0x8248
  const GL_DEBUG_SOURCE_THIRD_PARTY: U32 := 0x8249
  const GL_DEBUG_SOURCE_APPLICATION: U32 := 0x824A
  const GL_DEBUG_SOURCE_OTHER: U32 := 0x824B
  const GL_DEBUG_TYPE_ERROR: U32 := 0x824C
  const GL_DEBUG_TYPE_DEPRECATED_BEHAVIOR: U32 := 0x824D
  const GL_DEBUG_TYPE_UNDEFINED_BEHAVIOR: U32 := 0x824E
  const GL_DEBUG_TYPE_PORTABILITY: U32 := 0x824F
  const GL_DEBUG_TYPE_PERFORMANCE: U32 := 0x8250
  const GL_DEBUG_TYPE_OTHER: U32 := 0x8251
  const GL_DEBUG_TYPE_MARKER: U32 := 0x8268
  const GL_DEBUG_TYPE_PUSH_GROUP: U32 := 0x8269
  const GL_DEBUG_TYPE_POP_GROUP: U32 := 0x826A
  const GL_DEBUG_SEVERITY_NOTIFICATION: U32 := 0x826B
  const GL_DEBUG_SEVERITY_HIGH: U32 := 0x9146
  const GL_DEBUG_SEVERITY_MEDIUM: U32 := 0x9147
  const GL_DEBUG_SEVERITY_LOW: U32 := 0x9148

  /** A shader precision-format enumerant, not a debug severity. */
  const GL_HIGH_FLOAT: U32 := 0x8DF2

  /** The C++ arithmetic types (std::is_arithmetic) the renderer can be
      instantiated with. Int32 is also `int` and UInt32 `unsigned int`. */
  datatype NumericType =
    | Float | Double
    | Int8 | UInt8 | Int16 | UInt16 | Int32 | UInt32
    | Int64 | UInt64 | Bool | LongDouble
}
