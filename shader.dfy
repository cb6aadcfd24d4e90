/** Model of include/renderer/shader/shader.hpp: compile-time predicates on
    shader stages and uniform specifications, shader units and programs as
    sequences of GL calls with their failure paths, and the dispatch of
    `SetUniform` onto the `glUniform*` entry points.

    OpenGL is an abstract context that hands out object names and records
    every call made to it. What the driver reports back (compile and link
    status, a uniform's location) is a parameter of the operation that asks. */
module Shader {
  import opened Wrappers
  import opened GlTypes

  // ------------------------------------------------------------ predicates

  /** The six shader stages, in the order `IsShaderType` lists them. */
  const ShaderStages: seq<U32> := [
    GL_COMPUTE_SHADER, GL_VERTEX_SHADER, GL_TESS_CONTROL_SHADER,
    GL_TESS_EVALUATION_SHADER, GL_GEOMETRY_SHADER, GL_FRAGMENT_SHADER]

  /** `std::ranges::any_of(values, [](v) { return t == v; })`. */
  function AnyOf(values: seq<U32>, t: U32): (found: bool)
    ensures found <==> t in values
  {
    if |values| == 0 then false
    else values[0] == t || AnyOf(values[1..], t)
  }

  /** The concept `IsShaderType<Type>`: exactly the six stage enumerants. */
  function IsShaderType(t: U32): (r: bool)
    ensures r <==> t in {GL_COMPUTE_SHADER, GL_VERTEX_SHADER, GL_TESS_CONTROL_SHADER,
                         GL_TESS_EVALUATION_SHADER, GL_GEOMETRY_SHADER, GL_FRAGMENT_SHADER}
  {
    AnyOf(ShaderStages, t)
  }

  /** The concept `ValidUniformSpec<Size, Type>`. */
  predicate ValidUniformSpec(size: nat, t: NumericType): (valid: bool)
    ensures valid <==> size <= 4 && exists s :: ScalarType(s) == t
  {
    assert ScalarType(FloatValue(0.0)) == Float && ScalarType(DoubleValue(0.0)) == Double;
    assert ScalarType(IntValue(0)) == Int32 && ScalarType(UIntValue(0)) == UInt32;
    size <= 4 && (t == UInt32 || t == Float || t == Int32 || t == Double)
  }

  /** Only the four `glUniform` element types qualify, and at most four values. */
  lemma UniformSpecExamples(t: NumericType)
    ensures ValidUniformSpec(4, t) <==> t in {UInt32, Float, Int32, Double}
    ensures !ValidUniformSpec(5, t)
    ensures !ValidUniformSpec(1, Int64) && !ValidUniformSpec(1, Bool) && !ValidUniformSpec(1, UInt8)
  {
  }

  /** A uniform value; its alternative is its C++ type. Floating-point values
      are kept as mathematical reals. */
  datatype Scalar = FloatValue(f: real) | DoubleValue(d: real) | IntValue(i: int) | UIntValue(u: nat)

  function ScalarType(s: Scalar): NumericType
  {
    match s
    case FloatValue(_) => Float
    case DoubleValue(_) => Double
    case IntValue(_) => Int32
    case UIntValue(_) => UInt32
  }

  /** The type suffix of the `glUniform*` entry points. */
  function UniformSuffix(t: NumericType): string
    requires ValidUniformSpec(1, t)
  {
    if t == Float then "f"
    else if t == Int32 then "i"
    else if t == UInt32 then "ui"
    else "d"
  }

  /** The entry point `SetUniform<Size, Type>` calls: `glUniform{Size}{suffix}`. */
  function UniformFunctionName(size: nat, t: NumericType): (entryPoint: string)
    requires 1 <= size && ValidUniformSpec(size, t)
    ensures |entryPoint| == 10 + |UniformSuffix(t)|
    ensures entryPoint[..9] == "glUniform"
    ensures entryPoint[9] == "01234"[size]
    ensures entryPoint[10..] == UniformSuffix(t)
  {
    "glUniform" + ["01234"[size]] + UniformSuffix(t)
  }

  /** Every arity and type selects its own entry point. */
  lemma UniformFunctionNamesDistinct(size1: nat, t1: NumericType, size2: nat, t2: NumericType)
    requires 1 <= size1 && ValidUniformSpec(size1, t1)
    requires 1 <= size2 && ValidUniformSpec(size2, t2)
    requires size1 != size2 || t1 != t2
    ensures UniformFunctionName(size1, t1) != UniformFunctionName(size2, t2)
  {
    var a, b := UniformFunctionName(size1, t1), UniformFunctionName(size2, t2);
    if size1 != size2 {
      assert a[9] != b[9];
    } else {
      assert a[10..] != b[10..];
    }
  }

  /** The message of the `UniformError` thrown for a missing uniform: the
      quoted name, followed by " was not found" only in the four-value
      overload. */
  function UniformErrorMessage(name: string, size: nat): (what: string)
    ensures |what| >= |name| + 2
    ensures what[0] == '"' && what[1..|name| + 1] == name && what[|name| + 1] == '"'
    ensures size == 4 ==> what[|name| + 2..] == " was not found"
    ensures size != 4 ==> |what| == |name| + 2
  {
    "\"" + name + "\"" + (if size == 4 then " was not found" else "")
  }

  // ---------------------------------------------------------------- context

  datatype GlCall =
    | CreateShader(stage: U32, shader: nat)
    | ShaderSource(shader: nat, source: string)
    | CompileShader(shader: nat)
    | GetCompileStatus(shader: nat)
    | DeleteShader(shader: nat)
    | CreateProgram(program: nat)
    | AttachShader(program: nat, shader: nat)
    | LinkProgram(program: nat)
    | GetLinkStatus(program: nat)
    | DeleteProgram(program: nat)
    | UseProgram(program: nat)
    | GetUniformLocation(program: nat, uniform: string)
    | Uniform(entryPoint: string, location: int, values: seq<Scalar>)

  /** The GL context: the calls made so far and the next object name. */
  class GlContext {
    var calls: seq<GlCall>
    var nextName: nat

    constructor ()
      ensures calls == [] && nextName == 1
    {
      calls, nextName := [], 1;
    }

    /** `glCreateShader` / `glCreateProgram`: a new name, and the call. */
    method Create(call: nat -> GlCall) returns (name: nat)
      modifies this
      ensures name == old(nextName) && nextName == name + 1
      ensures calls == old(calls) + [call(name)]
    {
      name := nextName;
      nextName := nextName + 1;
      calls := calls + [call(name)];
    }

    method Issue(call: GlCall)
      modifies this
      ensures calls == old(calls) + [call] && nextName == old(nextName)
    {
      calls := calls + [call];
    }
  }

  datatype ShaderError = CompilationError | UniformError(what: string)

  datatype Outcome = Completed | Raised(error: ShaderError)

  // ----------------------------------------------------------- shader unit

  /** The calls a `ShaderUnit` constructor makes before it looks at the
      compile status. */
  function CompileCalls(stage: U32, shader: nat, source: string): seq<GlCall>
  {
    [CreateShader(stage, shader), ShaderSource(shader, source), CompileShader(shader), GetCompileStatus(shader)]
  }

  /** `ShaderUnit<ShaderType>`: one compiled shader object; not copyable
      and not movable. */
  class ShaderUnit {
    const stage: U32
    const shaderId: nat

    constructor Wrap(stage: U32, shaderId: nat)
      ensures this.stage == stage && this.shaderId == shaderId
    {
      this.stage, this.shaderId := stage, shaderId;
    }

    /** The constructor from source text: creates, uploads and compiles the
        shader; when the driver reports failure, deletes the shader and then
        throws `CompilationError`, making no further call. */
    static method Compile(stage: U32, source: string, compiled: bool, ctx: GlContext)
      returns (r: Result<ShaderUnit, ShaderError>)
      requires IsShaderType(stage)
      modifies ctx
      ensures var id := old(ctx.nextName);
        && ctx.nextName == id + 1
        && ctx.calls == old(ctx.calls) + CompileCalls(stage, id, source) + (if compiled then [] else [DeleteShader(id)])
        && (r.Success? <==> compiled)
        && (r.Failure? ==> r.error == CompilationError)
        && (r.Success? ==> fresh(r.value) && r.value.shaderId == id && r.value.stage == stage)
    {
      var id := ctx.Create((name: nat) => CreateShader(stage, name));
      ctx.Issue(ShaderSource(id, source));
      ctx.Issue(CompileShader(id));
      ctx.Issue(GetCompileStatus(id));
      if !compiled {
        ctx.Issue(DeleteShader(id));
        return Failure(CompilationError);
      }
      var unit := new ShaderUnit.Wrap(stage, id);
      r := Success(unit);
    }

    /** The destructor. */
    method Destroy(ctx: GlContext)
      modifies ctx
      ensures ctx.calls == old(ctx.calls) + [DeleteShader(shaderId)] && ctx.nextName == old(ctx.nextName)
    {
      ctx.Issue(DeleteShader(shaderId));
    }
  }

  /** The attach calls for `units`, in argument order. */
  function AttachCalls(program: nat, units: seq<ShaderUnit>): (calls: seq<GlCall>)
    ensures |calls| == |units|
    ensures forall i :: 0 <= i < |units| ==> calls[i] == AttachShader(program, units[i].shaderId)
  {
    if |units| == 0 then []
    else [AttachShader(program, units[0].shaderId)] + AttachCalls(program, units[1..])
  }

  /** `AddShaderUnits(program_id, first, rest...)`: attaches `first`, then
      recurses on the rest; there must be at least one unit. */
  method AddShaderUnits(program: nat, units: seq<ShaderUnit>, ctx: GlContext)
    requires |units| >= 1
    modifies ctx
    ensures ctx.calls == old(ctx.calls) + AttachCalls(program, units)
    ensures ctx.nextName == old(ctx.nextName)
    decreases |units|
  {
    ctx.Issue(AttachShader(program, units[0].shaderId));
    if |units| > 1 {
      AddShaderUnits(program, units[1..], ctx);
    }
  }

  // ---------------------------------------------------------------- program

  class Program {
    var programId: nat

    constructor Wrap(programId: nat)
      ensures this.programId == programId
    {
      this.programId := programId;
    }

    /** The constructor: creates the program, attaches every unit in
        argument order, links; when the driver reports failure, deletes the
        program and then throws `CompilationError`. */
    static method Link(units: seq<ShaderUnit>, linked: bool, ctx: GlContext)
      returns (r: Result<Program, ShaderError>)
      requires |units| >= 1
      modifies ctx
      ensures var id := old(ctx.nextName);
        && ctx.nextName == id + 1
        && ctx.calls == old(ctx.calls) + [CreateProgram(id)] + AttachCalls(id, units)
                        + [LinkProgram(id), GetLinkStatus(id)] + (if linked then [] else [DeleteProgram(id)])
        && (r.Success? <==> linked)
        && (r.Failure? ==> r.error == CompilationError)
        && (r.Success? ==> fresh(r.value) && r.value.programId == id)
    {
      var id := ctx.Create((name: nat) => CreateProgram(name));
      AddShaderUnits(id, units, ctx);
      ctx.Issue(LinkProgram(id));
      ctx.Issue(GetLinkStatus(id));
      if !linked {
        ctx.Issue(DeleteProgram(id));
        return Failure(CompilationError);
      }
      var p := new Program.Wrap(id);
      r := Success(p);
    }

    method Use(ctx: GlContext)
      modifies ctx
      ensures ctx.calls == old(ctx.calls) + [UseProgram(programId)] && ctx.nextName == old(ctx.nextName)
    {
      ctx.Issue(UseProgram(programId));
    }

    /** `SetUniform<Size, Type>(name, values...)`, all four overloads: `Size`
        is the number of values, all of type `Type`. `location` is what
        `glGetUniformLocation` returns. A missing uniform (-1) throws
        `UniformError` before any `glUniform*` call; otherwise the entry point
        for `Size` and `Type` receives the values in argument order. */
    method SetUniform(name: string, t: NumericType, values: seq<Scalar>, location: int, ctx: GlContext)
      returns (outcome: Outcome)
      requires 1 <= |values| && ValidUniformSpec(|values|, t)
      requires forall i :: 0 <= i < |values| ==> ScalarType(values[i]) == t
      modifies ctx
      ensures ctx.nextName == old(ctx.nextName)
      ensures location == -1 ==>
        && outcome == Raised(UniformError(UniformErrorMessage(name, |values|)))
        && ctx.calls == old(ctx.calls) + [GetUniformLocation(programId, name)]
      ensures location != -1 ==>
        && outcome == Completed
        && ctx.calls == old(ctx.calls) + [GetUniformLocation(programId, name),
                                         Uniform(UniformFunctionName(|values|, t), location, values)]
    {
      ctx.Issue(GetUniformLocation(programId, name));
      if location == -1 {
        var quoted := "\"" + name + "\"";
        if |values| == 4 {
          return Raised(UniformError(quoted + " was not found"));
        }
        assert quoted + "" == quoted;
        return Raised(UniformError(quoted));
      }
      var suffix := if t == Float then "f" else if t == Int32 then "i" else if t == UInt32 then "ui" else "d";
      ctx.Issue(Uniform("glUniform" + ["01234"[|values|]] + suffix, location, values));
      outcome := Completed;
    }

    /** The defaulted move constructor: copies the name and leaves the source
        holding it too. */
    constructor MoveFrom(other: Program)
      ensures programId == other.programId
    {
      programId := other.programId;
    }

    /** The defaulted move assignment: overwrites the name without deleting
        the one held before, and leaves the source holding its name. */
    method MoveAssign(other: Program)
      modifies this
      ensures programId == other.programId
    {
      programId := other.programId;
    }

    /** The destructor: deletes the program unconditionally. */
    method Destroy(ctx: GlContext)
      modifies ctx
      ensures ctx.calls == old(ctx.calls) + [DeleteProgram(programId)] && ctx.nextName == old(ctx.nextName)
    {
      ctx.Issue(DeleteProgram(programId));
    }
  }

  // ------------------------------------------------------------- scenarios

  /** The program set-up of the demo: a vertex and a fragment unit, a
      program linking both, then `Use`, when the driver reports success. */
  method DemoProgramSetup(vertexSource: string, fragmentSource: string) returns (calls: seq<GlCall>)
    ensures calls == CompileCalls(GL_VERTEX_SHADER, 1, vertexSource)
                   + CompileCalls(GL_FRAGMENT_SHADER, 2, fragmentSource)
                   + [CreateProgram(3), AttachShader(3, 1), AttachShader(3, 2),
                      LinkProgram(3), GetLinkStatus(3), UseProgram(3)]
  {
    var ctx := new GlContext();
    var vertex := ShaderUnit.Compile(GL_VERTEX_SHADER, vertexSource, true, ctx);
    var fragment := ShaderUnit.Compile(GL_FRAGMENT_SHADER, fragmentSource, true, ctx);
    var program := Program.Link([vertex.value, fragment.value], true, ctx);
    program.value.Use(ctx);
    calls := ctx.calls;
  }

  /** A shader that fails to compile is deleted exactly once, as the last
      call: the destructor does not run for a constructor that threw. */
  method FailedCompileDeletesOnce(source: string) returns (r: Result<ShaderUnit, ShaderError>, calls: seq<GlCall>)
    ensures r == Failure(CompilationError)
    ensures calls == CompileCalls(GL_FRAGMENT_SHADER, 1, source) + [DeleteShader(1)]
  {
    var ctx := new GlContext();
    r := ShaderUnit.Compile(GL_FRAGMENT_SHADER, source, false, ctx);
    calls := ctx.calls;
  }

  /** A uniform that is not found: four values give the longer message, and
      no value reaches the driver. */
  method MissingUniform(name: string) returns (three: Outcome, four: Outcome, calls: seq<GlCall>)
    ensures three == Raised(UniformError("\"" + name + "\""))
    ensures four == Raised(UniformError("\"" + name + "\" was not found"))
    ensures forall i :: 0 <= i < |calls| ==> !calls[i].Uniform?
  {
    var ctx := new GlContext();
    var p := new Program.Wrap(7);
    assert "\"" + name + "\" was not found" == "\"" + name + "\"" + " was not found";
    assert ("\"" + name + "\"") + "" == "\"" + name + "\"";
    three := p.SetUniform(name, Float, [FloatValue(1.0), FloatValue(0.5), FloatValue(0.0)], -1, ctx);
    four := p.SetUniform(name, Int32, [IntValue(1), IntValue(2), IntValue(3), IntValue(4)], -1, ctx);
    calls := ctx.calls;
  }

  /** Moving a program copies its name, so the two destructors delete the
      same program twice, whatever the program and the context. */
  method MovedProgramDeletedTwice(linked: Program, ctx: GlContext) returns (moved: Program)
    modifies ctx
    ensures moved.programId == linked.programId
    ensures ctx.calls == old(ctx.calls) + [DeleteProgram(linked.programId), DeleteProgram(linked.programId)]
  {
    moved := new Program.MoveFrom(linked);
    moved.Destroy(ctx);
    linked.Destroy(ctx);
  }
}
