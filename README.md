# BphoOptics renderer core in Dafny

This project models the core of the BphoOptics OpenGL demo renderer and
proves properties of that model. It covers:

- **`Drawer`** (`drawer.dfy`). This is the type-erased drawer. It holds one
  concrete drawing strategy, either inline in a 128-byte buffer or in a heap
  box. Its hand-written copy operations and its defaulted move and destructor
  are modelled as written, defects included:
  - copy-assigning from an inline drawer discards the clone;
  - the copy constructor inspects its own holder;
  - an inline strategy is never destroyed;
  - a move duplicates inline bytes.

  Ghost counters record how many strategy objects each drawer has alive and
  how many destructors it ran. The `assert` inside `Clone` depends on the
  build, so it is a flag (`assertsEnabled`).
- **`DrawerClass` and the demo program** (`main_app.dfy`). This covers the
  earlier `DrawerClass`, the window-size globals and the resize callback,
  and one iteration of the render loop, which draws the clear strategy and
  then the triangle strategy with a zero time step. It also covers the
  debug-message callback's id filter.
- **Call-signature classification** (`concepts.dfy`). C++ types become a
  datatype of type expressions, and template specialisation becomes a match
  on that datatype.
- **GL object wrappers** (`vertexes.dfy`). These are the move-only
  buffer/vertex-array handles, the factories that return an object or a
  creation error, `ScopedBinder` and `VertexArrayBuilder`. The pure helpers
  are `kGlTypeV`, `calculate_*` and `make_attribute`. OpenGL is an abstract
  driver state with these parts:
  - allocated and bound names per kind;
  - the next name;
  - an allocation-failure switch;
  - a log of vertex-attribute calls.

  This state follows the mock driver in `test/vertexTests.cpp`.
- **Shaders and programs** (`shader.dfy`). This covers the shader-stage and
  uniform-spec predicates, shader compilation and program linking with
  their delete-then-throw failure paths, and `SetUniform`'s error path and
  choice of `glUniform*` entry point. OpenGL is a context that hands out
  names and logs calls. What the driver reports back is a parameter: the
  compile status, the link status and a uniform's location.
- **Debug enum names and log levels** (`debug_enums.dfy`). These follow
  section 20.2 "Debug Messages" of the OpenGL 4.6 Core Profile
  specification.
- **Helpers.** `vector.dfy` holds the `Vector` accessors, which return
  mutable references into an array. `fuzz_tester.dfy` holds the fuzz
  harness's byte-summing loop, whose 32-bit `int` accumulator overflows from
  8422 bytes of `0xFF` onwards.
- **Shared definitions.** `gl_types.dfy` holds the GL enumerant values, and
  `wrappers.dfy` holds `Option` and `Result`.

Where the code and its surrounding documentation or tests disagree, the
model follows the code:

- `GLEnumErrorSeverityToSpdLog` never throws. The test at `test/tests.cpp:14`
  expects it to throw for `GL_HIGH_FLOAT`, but the code maps every
  unranked severity to `info`.
- `DrawerClass` has no copy constructor at all. Its implicit copy is deleted
  because the `unique_ptr` alternative cannot be copied. The duplication of
  inline bytes happens in its implicit move, which is what `DrawerClass.Move`
  models.
- Some code paths do not compile as written. The model follows the evident
  intent of each:
  - The heap branch of both drawer constructors calls `unique_ptr` on an
    object, or `variant::emplace` without an alternative. It is modelled as
    a heap box holding the strategy.
  - `ConcreteDrawer::Clone` calls `make_unique` on the abstract
    `DrawerConcept`. It is modelled as a heap copy.
  - `src/main/main.cpp:207` moves non-movable `ShaderUnit`s. It is modelled
    as the call sequence it intends (`Shader.DemoProgramSetup`).

## Model

| member | source | states |
|---|---|---|
| Drawer.Dispatch | include/renderer/drawer/drawer.hpp:37-40 | the held strategy, in either storage mode, runs with the window and time step unchanged; empty storage gives undefined behaviour |
| Drawer.Clone | include/renderer/drawer/drawer.hpp:41-52 | placement happens exactly when a non-null address is given; a heap copy is made exactly when there is no address and asserts are off; the assert fails exactly for a null address with asserts on; any copy equals the original |
| Drawer.Drawer.constructor | include/renderer/drawer/drawer.hpp:110-126 | holds the strategy; inline exactly when its size is at most 128 bytes; one live object, none destroyed |
| Drawer.Drawer.CopyConstruct | include/renderer/drawer/drawer.hpp:59-75 | an inline source throws `bad_variant_access`; a null box is undefined; a boxed source with asserts on is undefined; a boxed source with asserts off gives a fresh drawer holding an equal copy |
| Drawer.Drawer.Move | include/renderer/drawer/drawer.hpp:76 | the destination gets the source's holder; a heap source is left with a null box, while an inline source keeps its bytes and the destination owns no object |
| Drawer.Drawer.CopyAssign | include/renderer/drawer/drawer.hpp:77-107 | self-assignment changes nothing; a boxed source replaces the holder with a copy and deletes the old box; an inline source into a heap target throws; an inline source into an inline target leaves zeroed storage while one more object is alive (the clone is leaked) |
| Drawer.Drawer.MoveAssign | include/renderer/drawer/drawer.hpp:108 | self-move changes nothing; otherwise the holder is taken over, an old box is deleted, and a heap source is left null |
| Drawer.Drawer.Destroy | include/renderer/drawer/drawer.hpp:109 | a boxed strategy is destroyed once; an inline strategy is never destroyed |
| Drawer.Drawer.Draw | include/renderer/drawer/drawer.hpp:128-138 | the outcome is the dispatch of the held strategy with the given arguments |
| Drawer.DrawAfterConstruction | include/renderer/drawer/drawer.hpp:110-138 | a freshly built drawer runs exactly its strategy with the caller's window and time step |
| Drawer.StorageBoundary | include/renderer/drawer/drawer.hpp:115-125 | a 128-byte strategy is stored inline, a 129-byte one on the heap, and both draw their own strategy |
| Drawer.InlineCopyAssignDiscardsClone | include/renderer/drawer/drawer.hpp:89-104 | copy-assigning between inline drawers reports success, the target's next draw is undefined, and two objects are leaked |
| Drawer.HeapCopyAssign | include/renderer/drawer/drawer.hpp:83-88 | with asserts off, the target draws the source's strategy; with asserts on, the assignment is undefined and the target keeps its own |
| Drawer.InlineCopyConstructThrows | include/renderer/drawer/drawer.hpp:61-62 | copy-constructing from any inline drawer throws `bad_variant_access` |
| Drawer.MoveThenDraw | include/renderer/drawer/drawer.hpp:76 | after a move, the destination draws the strategy; an inline source still draws it too, and a heap source's draw is undefined |
| Drawer.ConstructThenDestroy | include/renderer/drawer/drawer.hpp:109 | after destruction, a heap strategy has been destroyed once and an inline one is still alive |
| MainApp.DrawerClass.constructor | src/main/main.cpp:106-122 | holds the strategy; inline exactly when it fits 128 bytes |
| MainApp.DrawerClass.Move | src/main/main.cpp:101-103 | implicit move: a heap box changes owner and leaves a null box; inline bytes are duplicated |
| MainApp.DrawerClass.Destroy | src/main/main.cpp:101-135 | implicit destructor: only a boxed strategy is destroyed |
| MainApp.DrawerClass.Draw | src/main/main.cpp:124-134 | dispatches to the held strategy with unchanged arguments |
| MainApp.InlineMoveDuplicates | src/main/main.cpp:101-135 | after moving an inline `DrawerClass`, both drawers run the same strategy and destroying both destroys nothing |
| MainApp.WindowGlobals.constructor | src/main/main.cpp:54-58 | the window size starts at 800 x 600 |
| MainApp.WindowGlobals.FramebufferSizeCallback | src/main/main.cpp:62-67 | width and height become the new size and the viewport covers the whole framebuffer |
| MainApp.FrameLoop.constructor | src/main/main.cpp:226 | the previous time starts at the clock reading |
| MainApp.FrameLoop.RenderFrame | src/main/main.cpp:229-238 | the previous time becomes the frame's start time, the time step is zero, and the clear drawer is dispatched strictly before the triangle drawer |
| MainApp.DemoFrames | src/main/main.cpp:214-238 | every frame runs the clear strategy and then the triangle strategy, both with a zero time step, whatever the clock says |
| MainApp.DebugCallback | src/main/main.cpp:32-49 | nothing is logged exactly for ids 131169, 131185, 131218 and 131204; otherwise the level is the severity's spdlog level and the text names the source, the type and the message |
| MainApp.DebugCallbackExamples | src/main/main.cpp:41-48 | a high-severity API error is logged as critical, the same message under an ignored id is dropped, and a notification is logged at info |
| Concepts.FunctionSignatureInfo | include/renderer/utils/concepts.hpp:6-18 | valid exactly for a plain function type; then the return type and the tuple of parameter types; otherwise both are `void` |
| Concepts.Signature | include/renderer/utils/concepts.hpp:20-21 | holds exactly for a plain function type `Ret(Params...)` |
| Concepts.NonReturningFunction | include/renderer/utils/concepts.hpp:22-25 | holds exactly for a plain function type returning `void`; a non-function type is rejected although its default return type is `void` |
| Concepts.RetType | include/renderer/utils/concepts.hpp:26-27 | is the function type's return type |
| Concepts.ParamTypeTuple | include/renderer/utils/concepts.hpp:28-29 | is a tuple of the parameter types, in declaration order |
| Concepts.SignatureRoundTrip | include/renderer/utils/concepts.hpp:12-18 | the return type and the parameter tuple rebuild the signature |
| Concepts.DrawSignatureIsNonReturning | include/renderer/utils/concepts.hpp:22-29 | the draw signature `void(GLFWwindow const &, nanoseconds)` is a non-returning function whose first parameter is the window reference |
| DebugEnums.GetTypeString | src/openGLAbstractions/error.cpp:4-28 | never empty; "Unknown" exactly for values outside the nine debug types |
| DebugEnums.GetSourceString | src/openGLAbstractions/error.cpp:41-59 | never empty; "Unknown" exactly for values outside the six debug sources, 0 included |
| DebugEnums.GLEnumErrorSeverityToSpdLog | src/openGLAbstractions/error.cpp:29-40 | high is critical, medium is err, low is warn, and every other value (notification included) is info |
| DebugEnums.TypeNamesDistinct | src/openGLAbstractions/error.cpp:6-24 | each debug type's name gives the type back, so the nine names are distinct |
| DebugEnums.SourceNamesDistinct | src/openGLAbstractions/error.cpp:43-55 | each debug source's name gives the source back |
| DebugEnums.SeverityOrderPreserved | src/openGLAbstractions/error.cpp:31-38 | a more severe message never gets a lower level, and the three ranked severities get strictly decreasing levels |
| Vectors.Vector.constructor | include/renderer/vector/vector.hpp:6-8 | a vector of the given dimension with every element value-initialised |
| Vectors.Vector.Vector1 | include/renderer/vector/vector.hpp:32 | dimension 1 |
| Vectors.Vector.Vector2 | include/renderer/vector/vector.hpp:33 | dimension 2 |
| Vectors.Vector.Vector3 | include/renderer/vector/vector.hpp:34 | dimension 3 |
| Vectors.Vector.Vector4 | include/renderer/vector/vector.hpp:35 | dimension 4 |
| Vectors.Vector.X | include/renderer/vector/vector.hpp:9-13 | only when the dimension exceeds 0; reads element 0 |
| Vectors.Vector.Y | include/renderer/vector/vector.hpp:14-18 | only when the dimension exceeds 1; reads element 1 |
| Vectors.Vector.Z | include/renderer/vector/vector.hpp:19-23 | only when the dimension exceeds 2; reads element 2 |
| Vectors.Vector.W | include/renderer/vector/vector.hpp:24-28 | only when the dimension exceeds 3; reads element 3 |
| Vectors.Vector.SetX | include/renderer/vector/vector.hpp:9-13 | writing through `X` changes element 0 and no other |
| Vectors.Vector.SetY | include/renderer/vector/vector.hpp:14-18 | writing through `Y` changes element 1 and no other |
| Vectors.Vector.SetZ | include/renderer/vector/vector.hpp:19-23 | writing through `Z` changes element 2 and no other |
| Vectors.Vector.SetW | include/renderer/vector/vector.hpp:24-28 | writing through `W` changes element 3 and no other |
| Vectors.AccessorsAreDistinct | include/renderer/vector/vector.hpp:9-28 | values written through the four accessors read back independently |
| FuzzTester.SumValues | fuzz_test/fuzz_tester.cpp:8-18 | without overflow, the result is 1000 times the byte sum; overflow happens exactly when that exceeds `INT_MAX`, at the first byte that pushes the running value over |
| FuzzTester.SumBound | fuzz_test/fuzz_tester.cpp:13-16 | each byte adds at most 255 to the sum |
| FuzzTester.SumPrefixMonotone | fuzz_test/fuzz_tester.cpp:13-16 | the running value never decreases: a prefix's sum is at most the whole sum |
| FuzzTester.EmptyInputIsZero | fuzz_test/fuzz_tester.cpp:12-13 | an empty input sums to 0 |
| FuzzTester.NoOverflowBelow8422 | fuzz_test/fuzz_tester.cpp:12-16 | fewer than 8422 bytes never overflow the `int` |
| FuzzTester.OverflowAt8422 | fuzz_test/fuzz_tester.cpp:21 | 8422 bytes of `0xFF` overflow the `int` |
| FuzzTester.LLVMFuzzerTestOneInput | fuzz_test/fuzz_tester.cpp:24-28 | returns 0 for every input and reports the sum and the length |
| Vertexes.CreationMessagesDistinct | include/renderer/vertex/vertexes.hpp:17-39 | the three error types have distinct messages |
| Vertexes.GlTypeOf | include/renderer/vertex/vertexes.hpp:59-81 | maps each of the eight supported arithmetic types to one of the eight GL data types |
| Vertexes.NumericTypeOfGl | include/renderer/vertex/vertexes.hpp:59-81 | recognises exactly the eight GL data types, each as a supported arithmetic type |
| Vertexes.GlTypeRoundTrip | include/renderer/vertex/vertexes.hpp:59-81 | `kGlTypeV` is one-to-one: the GL type gives the arithmetic type back |
| Vertexes.GlTypeOnto | include/renderer/vertex/vertexes.hpp:59-81 | every one of the eight GL data types is produced by some arithmetic type |
| Vertexes.InitialState | test/vertexTests.cpp:21-29 | a valid driver with nothing allocated or bound |
| Vertexes.Generate | test/vertexTests.cpp:39-50 | with allocation failing, nothing changes and 0 is returned; otherwise the new name joins that kind's allocated set; the other kind, the bindings and the log are untouched |
| Vertexes.Delete | test/vertexTests.cpp:52-58 | the name leaves that kind's allocated and bound sets; the other kind is untouched |
| Vertexes.BindState | test/vertexTests.cpp:60-68 | binding 0 clears that kind's bindings; any other name joins them; allocation is untouched |
| Vertexes.Record | test/vertexTests.cpp:118-141 | attribute calls are appended to the log and nothing else changes |
| Vertexes.GenerateFresh | test/vertexTests.cpp:39-50 | a generated name is nonzero, was not allocated under either kind, and the driver stays valid |
| Vertexes.OperationsKeepValid | test/vertexTests.cpp:39-98 | generation, deletion, binding and recording keep the driver valid |
| Vertexes.GenerateThenDelete | test/vertexTests.cpp:39-58 | deleting a just-generated name restores the allocation of before |
| Vertexes.GlDriver.constructor | test/vertexTests.cpp:21-29 | starts from the reset state |
| Vertexes.GlDriver.SetAllocationFailure | test/vertexTests.cpp:31-34 | only the failure switch changes |
| Vertexes.GlDriver.Gen | test/vertexTests.cpp:39-50 | the new state and name are those of `Generate` |
| Vertexes.GlDriver.DeleteName | test/vertexTests.cpp:52-58 | the new state is that of `Delete` |
| Vertexes.GlDriver.BindName | test/vertexTests.cpp:60-68 | the new state is that of `BindState` |
| Vertexes.GlDriver.Call | test/vertexTests.cpp:118-141 | the calls are appended to the log |
| Vertexes.Handle.constructor | include/renderer/vertex/vertexes.hpp:164-166 | holds the given name, and is valid exactly when the name is nonzero |
| Vertexes.Handle.Default | include/renderer/vertex/vertexes.hpp:207 | a default vertex-array handle holds 0 and is not valid |
| Vertexes.Handle.Move | include/renderer/vertex/vertexes.hpp:176-178 | the destination takes the source's name and the source is left holding 0 |
| Vertexes.Handle.MoveAssign | include/renderer/vertex/vertexes.hpp:180-187 | self-move changes nothing; otherwise a nonzero old name is deleted, the source's name is taken, and the source is zeroed |
| Vertexes.Handle.Destroy | include/renderer/vertex/vertexes.hpp:168-171 | deletes the name exactly when it is nonzero, after which it is neither allocated nor bound |
| Vertexes.VertexBuffer.Create | include/renderer/vertex/vertexes.hpp:255-265 | fails with `BufferCreationError` exactly when the generated name is 0; otherwise a fresh valid buffer with that name and the target (by default `GL_ARRAY_BUFFER`) |
| Vertexes.VertexBuffer.Bind | include/renderer/vertex/vertexes.hpp:267 | binds the buffer's name |
| Vertexes.VertexBuffer.Unbind | include/renderer/vertex/vertexes.hpp:269 | binding 0 leaves no buffer bound |
| Vertexes.CalculateBufferSize | include/renderer/vertex/vertexes.hpp:302-307 | the `size_t` product of element count and element size: exact when it fits in 64 bits, otherwise congruent to it modulo 2^64 |
| Vertexes.CalculateElementOffset | include/renderer/vertex/vertexes.hpp:309-314 | the `size_t` product of element index and element size: exact when it fits in 64 bits, otherwise congruent to it modulo 2^64 |
| Vertexes.ElementWithinBuffer | include/renderer/vertex/vertexes.hpp:302-314 | when the buffer size does not wrap, every element's bytes lie inside the buffer |
| Vertexes.BufferSizeWraps | include/renderer/vertex/vertexes.hpp:302-307 | the size is computed in `size_t` and wraps |
| Vertexes.VertexArray.Create | include/renderer/vertex/vertexes.hpp:343-354 | fails with `VertexArrayCreationError` exactly when the generated name is 0; otherwise a fresh valid vertex array with that name |
| Vertexes.VertexArray.Bind | include/renderer/vertex/vertexes.hpp:356 | binds the vertex array's name |
| Vertexes.VertexArray.Unbind | include/renderer/vertex/vertexes.hpp:358 | leaves no vertex array bound |
| Vertexes.VertexArray.EnableAttribute | include/renderer/vertex/vertexes.hpp:360-364 | binds, then enables the attribute |
| Vertexes.VertexArray.DisableAttribute | include/renderer/vertex/vertexes.hpp:366-370 | binds, then disables the attribute |
| Vertexes.VertexArray.SetAttribute | include/renderer/vertex/vertexes.hpp:372-399 | binds, describes the attribute with the member type's GL type, then enables it |
| Vertexes.VertexArray.SetFloatAttribute | include/renderer/vertex/vertexes.hpp:402-408 | a non-normalised `GL_FLOAT` attribute |
| Vertexes.VertexArray.SetIntAttribute | include/renderer/vertex/vertexes.hpp:410-416 | a non-normalised `GL_INT` attribute |
| Vertexes.VertexArray.SetUintAttribute | include/renderer/vertex/vertexes.hpp:418-424 | a non-normalised `GL_UNSIGNED_INT` attribute |
| Vertexes.VertexArray.SetMemberAttribute | include/renderer/vertex/vertexes.hpp:427-436 | the stride is the vertex size and the offset is the member's offset |
| Vertexes.VertexArray.SetAttributeDivisor | include/renderer/vertex/vertexes.hpp:438-442 | binds, then sets the divisor |
| Vertexes.ScopedBinder.constructor | include/renderer/vertex/vertexes.hpp:481-484 | binds the object, which is then bound |
| Vertexes.ScopedBinder.End | include/renderer/vertex/vertexes.hpp:486 | unbinds, after which nothing of that kind is bound |
| Vertexes.HasRoom | include/renderer/vertex/vertexes.hpp:554-558 | without 32-bit overflow, room exactly when count plus request is at most 16; with overflow, room exactly when the sum minus 2^32 is at most 16 |
| Vertexes.HasRoomWithoutWrap | include/renderer/vertex/vertexes.hpp:554-558 | without wrap-around, there is room exactly when count plus request is at most 16 |
| Vertexes.HasRoomWraps | include/renderer/vertex/vertexes.hpp:554-558 | the `GLuint` sum wraps, so one attribute plus a request of 2^32 - 1 "has room" |
| Vertexes.VertexArrayBuilder.constructor | include/renderer/vertex/vertexes.hpp:513-515 | starts with no attributes; its vertex array takes over the argument's name and the argument's handle is left at 0 |
| Vertexes.VertexArrayBuilder.AddAttribute | include/renderer/vertex/vertexes.hpp:517-526 | configures attribute index = current count, then increments the count (in `GLuint`) |
| Vertexes.VertexArrayBuilder.SetDivisor | include/renderer/vertex/vertexes.hpp:528-534 | sets the divisor of attribute count - 1, and does nothing when the count is 0 |
| Vertexes.VertexArrayBuilder.Build | include/renderer/vertex/vertexes.hpp:536-539 | moves the vertex array out: the result holds the builder's name and the builder's handle is left at 0 |
| Vertexes.VertexArrayBuilder.CurrentAttributeCount | include/renderer/vertex/vertexes.hpp:548-552 | the number of attributes added |
| Vertexes.VertexArrayBuilder.HasRoomForAttributes | include/renderer/vertex/vertexes.hpp:554-558 | the 32-bit wrapped room check |
| Vertexes.MakeVertexArrayBuilder | include/renderer/vertex/vertexes.hpp:561-568 | forwards the creation error; otherwise a builder with no attributes over the new vertex array |
| Vertexes.MakeAttribute | include/renderer/vertex/vertexes.hpp:603-611 | an attribute whose GL type decodes back to the member type, with the given offset, size, components and normalisation |
| Vertexes.MovedHandleReleasedOnce | include/renderer/vertex/vertexes.hpp:168-178 | on any valid working driver and for either kind, a moved-from handle holds 0, so destroying both handles releases the new name once and restores the allocation of before |
| Vertexes.MoveAssignReleasesOldName | include/renderer/vertex/vertexes.hpp:180-187 | on any valid working driver and for either kind, move-assigning onto an owning handle releases its old name, so of two new names only the moved one stays allocated |
| Vertexes.FailedCreation | include/renderer/vertex/vertexes.hpp:255-265 | on any driver whose allocation fails, both factories report their error and the driver is unchanged |
| Vertexes.ScopedBinding | include/renderer/vertex/vertexes.hpp:475-492 | any object owning a name is bound inside the scope, nothing of its kind is bound after it, and allocation is untouched |
| Vertexes.BuilderNumbersAttributes | include/renderer/vertex/vertexes.hpp:517-539 | on any valid working driver, two attributes get indices 0 and 1, the divisor goes to index 1, and after `build()` the result owns the new name while the builder owns none |
| Shader.AnyOf | include/renderer/shader/shader.hpp:17-23 | true exactly when the value occurs in the list |
| Shader.IsShaderType | include/renderer/shader/shader.hpp:16-23 | holds exactly for the compute, vertex, tessellation-control, tessellation-evaluation, geometry and fragment stages |
| Shader.ValidUniformSpec | include/renderer/shader/shader.hpp:25-29 | holds exactly when there are at most four values and the type is one a uniform scalar can have (float, double, int, unsigned int) |
| Shader.UniformSpecExamples | include/renderer/shader/shader.hpp:25-29 | five values, or a type outside unsigned int, float, int and double, make an invalid spec |
| Shader.UniformFunctionName | include/renderer/shader/shader.hpp:134-142 | `glUniform`, then the value count, then the type suffix f, i, ui or d |
| Shader.UniformFunctionNamesDistinct | include/renderer/shader/shader.hpp:126-202 | every arity and type selects a different entry point |
| Shader.UniformErrorMessage | include/renderer/shader/shader.hpp:130-192 | the quoted name, followed by " was not found" only for four values |
| Shader.ShaderUnit.Compile | include/renderer/shader/shader.hpp:46-71 | creates, uploads, compiles and queries the shader; fails exactly when compilation fails, in which case the shader is deleted and no further call is made |
| Shader.ShaderUnit.Destroy | include/renderer/shader/shader.hpp:72 | deletes the shader |
| Shader.AttachCalls | include/renderer/shader/shader.hpp:85-96 | one attach call per unit, in argument order |
| Shader.AddShaderUnits | include/renderer/shader/shader.hpp:85-96 | attaches every unit in argument order |
| Shader.Program.Link | include/renderer/shader/shader.hpp:104-124 | creates the program, attaches every unit in order, links and queries; fails exactly when linking fails, in which case the program is deleted |
| Shader.Program.Use | include/renderer/shader/shader.hpp:125 | makes the program current |
| Shader.Program.SetUniform | include/renderer/shader/shader.hpp:126-202 | takes N values of one type; location -1 gives a `UniformError` with no `glUniform` call; otherwise calls `glUniform{N}{f,i,ui,d}` with the values in order |
| Shader.Program.MoveFrom | include/renderer/shader/shader.hpp:213 | the defaulted move copies the program name |
| Shader.Program.MoveAssign | include/renderer/shader/shader.hpp:215 | the defaulted move assignment overwrites the name without deleting the old program |
| Shader.Program.Destroy | include/renderer/shader/shader.hpp:216 | deletes the program, whatever its name |
| Shader.DemoProgramSetup | src/main/main.cpp:203-208 | the demo's GL call sequence: compile a vertex and a fragment shader, link both into a program in that order, then use it |
| Shader.FailedCompileDeletesOnce | include/renderer/shader/shader.hpp:56-70 | a failed compilation deletes the shader exactly once, as the last call |
| Shader.MissingUniform | include/renderer/shader/shader.hpp:162-192 | a missing uniform gives the quoted name for three values and "... was not found" for four, and no value reaches the driver |
| Shader.MovedProgramDeletedTwice | include/renderer/shader/shader.hpp:213-216 | for any program and context, after a move both objects hold the same name, so the two destructors delete it twice |

## Left out

- Window creation, GLFW and GLAD initialisation, buffer swapping, event polling, the top-level `try` in `main`, and `ReadFile` are I/O. Clock readings and file contents become parameters.
- The raw GL set-up in `main` (`src/main/main.cpp:185-202, 212, 243-244`) bypasses the wrappers and is left out as GL plumbing.
- Byte-level placement (`reinterpret_cast`, `construct_at` into the 128-byte array) and alignment are abstracted into the `Holder` union. C++ object-lifetime rules are not checked.
- `sizeof`, `alignof` and `offsetof` values are parameters. This affects `GlTypeSize`, `GlTypeAlignment`, `VertexSize`, `VertexAlignment`, `MemberOffset`, `calculate_member_offset`, `calculate_stride`, `vertex_size` and `vertex_alignment`, which are not modelled separately.
- `make_member_attribute` is `MakeAttribute` applied to the member's offset, which is a parameter here.
- `set_data` and `set_sub_data` (buffer uploads) are left out. The driver model records no buffer contents.
- The `VertexBuffer` target is stored but does not affect the driver state; the mock driver ignores it too.
- The name-reading accessors (`get_id`, `get_target`, `is_valid`, `operator bool`, `GetShaderID`) are not separate members. The model reads the fields directly, and a handle's validity is its predicate `IsValid`.
- `GlHandle<Deleter>`, `BufferHandle` and `VertexArrayHandle` are one class, `Handle`, whose `kind` selects the delete function.
- `ScopedBinder` is modelled over the object's handle.
- The `opengl_object`, `vertex_data`, `numeric_type` and `ShaderType` concepts are compile-time constraints. They appear only as preconditions, such as `IsGlMappable` and `IsShaderType`.
- Driver names are unbounded naturals. The `GLuint` wrap-around of the mock's `next_id` is not modelled.
- Shader and program info-log retrieval is left out. So is the message of `CompilationError`, which keeps a pointer to a string that dies when the exception is thrown.
- The destruction of the by-value `ShaderUnit` arguments after `Program`'s constructor is not part of `Program.Link`; callers destroy units with `ShaderUnit.Destroy`.
- `UseProgramInFunction` only forwards the program name to a caller's function and is left out.
- Floating-point values are mathematical reals, and vertex data is not modelled.
- The `runtime_error` branches of `Drawer`'s copy constructor and copy assignment, which test `Clone`'s result (`include/renderer/drawer/drawer.hpp:66`, `:86`), cannot be reached: a clone without an address never returns an empty result. They are kept in the model but no contract mentions them.
- `include/renderer/colour/colour.hpp`, `include/renderer/plot/linePlot.hpp`, `include/renderer/shape/openGLShapes.hpp`, `include/renderer/shape/shape.hpp`, `include/renderer/point/point.hpp`, `include/renderer/drawer/openGlDrawer.hpp` and `include/renderer/error/error.hpp` are not part of this model. They are stubs, aliases, trivial accessors and exception classes.
- There is no concurrency in the modelled code.
