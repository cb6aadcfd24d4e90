/** Model of src/openGLAbstractions/error.cpp: names for the OpenGL debug
    message sources and types (section 20.2 "Debug Messages" of the OpenGL 4.6
    Core Profile specification, tables 20.1 and 20.2) and the spdlog level
    chosen for each severity (table 20.3). */
module DebugEnums {
  import opened GlTypes

  /** spdlog::level::level_enum, in its declared order. */
  datatype LogLevel = Trace | Debug | Info | Warn | Err | Critical | Off

  /** The numeric value of an spdlog level (trace = 0 ... off = 6). */
  function LevelValue(l: LogLevel): nat
  {
    match l
    case Trace => 0
    case Debug => 1
    case Info => 2
    case Warn => 3
    case Err => 4
    case Critical => 5
    case Off => 6
  }

  /** The nine debug types of table 20.2, in the order the switch lists them. */
  const DebugTypes: seq<U32> := [
    GL_DEBUG_TYPE_ERROR, GL_DEBUG_TYPE_DEPRECATED_BEHAVIOR, GL_DEBUG_TYPE_UNDEFINED_BEHAVIOR,
    GL_DEBUG_TYPE_PORTABILITY, GL_DEBUG_TYPE_PERFORMANCE, GL_DEBUG_TYPE_MARKER,
    GL_DEBUG_TYPE_PUSH_GROUP, GL_DEBUG_TYPE_POP_GROUP, GL_DEBUG_TYPE_OTHER]

  /** The six debug sources of table 20.1, in the order the switch lists them. */
  const DebugSources: seq<U32> := [
    GL_DEBUG_SOURCE_API, GL_DEBUG_SOURCE_WINDOW_SYSTEM, GL_DEBUG_SOURCE_SHADER_COMPILER,
    GL_DEBUG_SOURCE_THIRD_PARTY, GL_DEBUG_SOURCE_APPLICATION, GL_DEBUG_SOURCE_OTHER]

  /** The severities of table 20.3, most severe first. */
  const DebugSeverities: seq<U32> := [
    GL_DEBUG_SEVERITY_HIGH, GL_DEBUG_SEVERITY_MEDIUM, GL_DEBUG_SEVERITY_LOW,
    GL_DEBUG_SEVERITY_NOTIFICATION]

  /** `GetTypeString`: a total map; every value outside table 20.2 is "Unknown". */
  function GetTypeString(kind: U32): (name: string)
    ensures name != []
    ensures name == "Unknown" <==> kind !in DebugTypes
  {
    if kind == GL_DEBUG_TYPE_ERROR then "Error"
    else if kind == GL_DEBUG_TYPE_DEPRECATED_BEHAVIOR then "Deprecated Behavior"
    else if kind == GL_DEBUG_TYPE_UNDEFINED_BEHAVIOR then "Undefined Behavior"
    else if kind == GL_DEBUG_TYPE_PORTABILITY then "Portability"
    else if kind == GL_DEBUG_TYPE_PERFORMANCE then "Performance"
    else if kind == GL_DEBUG_TYPE_MARKER then "Marker"
    else if kind == GL_DEBUG_TYPE_PUSH_GROUP then "Push Group"
    else if kind == GL_DEBUG_TYPE_POP_GROUP then "Pop Group"
    else if kind == GL_DEBUG_TYPE_OTHER then "Other"
    else "Unknown"
  }

  /** `GetSourceString`: a total map; every value outside table 20.1,
      0 included, is "Unknown". */
  function GetSourceString(source: U32): (name: string)
    ensures name != []
    ensures name == "Unknown" <==> source !in DebugSources
  {
    if source == GL_DEBUG_SOURCE_API then "API"
    else if source == GL_DEBUG_SOURCE_WINDOW_SYSTEM then "Window System"
    else if source == GL_DEBUG_SOURCE_SHADER_COMPILER then "Shader Compiler"
    else if source == GL_DEBUG_SOURCE_THIRD_PARTY then "Third Party"
    else if source == GL_DEBUG_SOURCE_APPLICATION then "Application"
    else if source == GL_DEBUG_SOURCE_OTHER then "Other"
    else "Unknown"
  }

  /** `GLEnumErrorSeverityToSpdLog`: starts from info and overrides it for the
      three ranked severities; it never fails, whatever the argument. */
  function GLEnumErrorSeverityToSpdLog(severity: U32): (level: LogLevel)
    ensures severity == GL_DEBUG_SEVERITY_HIGH ==> level == Critical
    ensures severity == GL_DEBUG_SEVERITY_MEDIUM ==> level == Err
    ensures severity == GL_DEBUG_SEVERITY_LOW ==> level == Warn
    ensures (severity != GL_DEBUG_SEVERITY_HIGH && severity != GL_DEBUG_SEVERITY_MEDIUM
             && severity != GL_DEBUG_SEVERITY_LOW) ==> level == Info
  {
    if severity == GL_DEBUG_SEVERITY_HIGH then Critical
    else if severity == GL_DEBUG_SEVERITY_MEDIUM then Err
    else if severity == GL_DEBUG_SEVERITY_LOW then Warn
    else Info
  }

  /** Inverse of GetTypeString on the known names. */
  function TypeFromName(name: string): (kind: U32)
  {
    if name == "Error" then GL_DEBUG_TYPE_ERROR
    else if name == "Deprecated Behavior" then GL_DEBUG_TYPE_DEPRECATED_BEHAVIOR
    else if name == "Undefined Behavior" then GL_DEBUG_TYPE_UNDEFINED_BEHAVIOR
    else if name == "Portability" then GL_DEBUG_TYPE_PORTABILITY
    else if name == "Performance" then GL_DEBUG_TYPE_PERFORMANCE
    else if name == "Marker" then GL_DEBUG_TYPE_MARKER
    else if name == "Push Group" then GL_DEBUG_TYPE_PUSH_GROUP
    else if name == "Pop Group" then GL_DEBUG_TYPE_POP_GROUP
    else GL_DEBUG_TYPE_OTHER
  }

  /** Inverse of GetSourceString on the known names. */
  function SourceFromName(name: string): (source: U32)
  {
    if name == "API" then GL_DEBUG_SOURCE_API
    else if name == "Window System" then GL_DEBUG_SOURCE_WINDOW_SYSTEM
    else if name == "Shader Compiler" then GL_DEBUG_SOURCE_SHADER_COMPILER
    else if name == "Third Party" then GL_DEBUG_SOURCE_THIRD_PARTY
    else if name == "Application" then GL_DEBUG_SOURCE_APPLICATION
    else GL_DEBUG_SOURCE_OTHER
  }

  /** Every debug type gets its own name: the name gives the type back. */
  lemma TypeNamesDistinct(i: nat)
    requires i < |DebugTypes|
    ensures TypeFromName(GetTypeString(DebugTypes[i])) == DebugTypes[i]
  {
  }

  /** Every debug source gets its own name: the name gives the source back. */
  lemma SourceNamesDistinct(i: nat)
    requires i < |DebugSources|
    ensures SourceFromName(GetSourceString(DebugSources[i])) == DebugSources[i]
  {
  }

  /** The level mapping keeps table 20.3's order: a more severe message never
      gets a lower spdlog level, and the three ranked ones get distinct levels
      above info. */
  lemma SeverityOrderPreserved(i: nat, j: nat)
    requires i < j < |DebugSeverities|
    ensures LevelValue(GLEnumErrorSeverityToSpdLog(DebugSeverities[i]))
         >= LevelValue(GLEnumErrorSeverityToSpdLog(DebugSeverities[j]))
    ensures j < 3 ==>
      LevelValue(GLEnumErrorSeverityToSpdLog(DebugSeverities[i]))
      > LevelValue(GLEnumErrorSeverityToSpdLog(DebugSeverities[j]))
  {
  }
}
