/** Model of include/renderer/vertex/vertexes.hpp: RAII owners of OpenGL
    buffer and vertex-array names, their factories, a scoped binder, a
    vertex-array builder that numbers attributes, and the pure helpers that
    map C++ arithmetic types onto GL data types.

    OpenGL itself is the abstract driver state `GlState`: the allocated and
    bound names of each object kind, the next name to hand out, a switch that
    makes every allocation fail, and a log of the vertex-attribute calls. It
    follows the mock driver of test/vertexTests.cpp. */
module Vertexes {
  import opened Wrappers
  import opened GlTypes

  /** std::size_t: unsigned 64-bit. */
  const TwoTo64: int := 0x1_0000_0000_0000_0000
  type U64 = x: int | 0 <= x < TwoTo64

  // ---------------------------------------------------------------- errors

  datatype CreationError = BufferCreationError | VertexArrayCreationError | InvalidOperationError
  {
    /** The `message()` of each error type. */
    function Message(): string
    {
      match this
      case BufferCreationError => "Failed to create OpenGL buffer"
      case VertexArrayCreationError => "Failed to create OpenGL vertex array"
      case InvalidOperationError => "Invalid OpenGL operation"
    }
  }

  /** Each error type reports its own message. */
  lemma CreationMessagesDistinct(a: CreationError, b: CreationError)
    requires a != b
    ensures a.Message() != b.Message()
  {
  }

  // ------------------------------------------------------- GL type mapping

  /** The arithmetic types `kGlTypeV` accepts; any other one is rejected at
      compile time by its `static_assert`. */
  predicate IsGlMappable(t: NumericType)
  {
    match t
    case Float | Double | Int8 | UInt8 | Int16 | UInt16 | Int32 | UInt32 => true
    case _ => false
  }

  /** The eight GL data-type enumerants `kGlTypeV` can produce. */
  const GlDataTypes: set<U32> :=
    {GL_FLOAT, GL_DOUBLE, GL_BYTE, GL_UNSIGNED_BYTE, GL_SHORT, GL_UNSIGNED_SHORT, GL_INT, GL_UNSIGNED_INT}

  /** `kGlTypeV<T>`. */
  function GlTypeOf(t: NumericType): (e: U32)
    requires IsGlMappable(t)
    ensures e in GlDataTypes
  {
    if t == Float then GL_FLOAT
    else if t == Double then GL_DOUBLE
    else if t == Int8 then GL_BYTE
    else if t == UInt8 then GL_UNSIGNED_BYTE
    else if t == Int16 then GL_SHORT
    else if t == UInt16 then GL_UNSIGNED_SHORT
    else if t == Int32 then GL_INT
    else GL_UNSIGNED_INT
  }

  /** The reverse table: which arithmetic type a GL data type stands for. */
  function NumericTypeOfGl(e: U32): (t: Option<NumericType>)
    ensures t.Some? <==> e in GlDataTypes
    ensures t.Some? ==> IsGlMappable(t.value)
  {
    if e == GL_FLOAT then Some(Float)
    else if e == GL_DOUBLE then Some(Double)
    else if e == GL_BYTE then Some(Int8)
    else if e == GL_UNSIGNED_BYTE then Some(UInt8)
    else if e == GL_SHORT then Some(Int16)
    else if e == GL_UNSIGNED_SHORT then Some(UInt16)
    else if e == GL_INT then Some(Int32)
    else if e == GL_UNSIGNED_INT then Some(UInt32)
    else None
  }

  /** `kGlTypeV` is one-to-one: the GL type gives the arithmetic type back. */
  lemma GlTypeRoundTrip(t: NumericType)
    requires IsGlMappable(t)
    ensures NumericTypeOfGl(GlTypeOf(t)) == Some(t)
  {
  }

  /** ... and onto the eight GL data types. */
  lemma GlTypeOnto(e: U32)
    requires e in GlDataTypes
    ensures GlTypeOf(NumericTypeOfGl(e).value) == e
  {
  }

  // ---------------------------------------------------------- driver state

  datatype ObjectKind = Buffers | VertexArrays

  /** The vertex-attribute calls, which the driver only records. */
  datatype AttribCall =
    | VertexAttribPointer(index: U32, size: int, glType: U32, normalized: bool, stride: int, offset: U64)
    | EnableVertexAttribArray(index: U32)
    | DisableVertexAttribArray(index: U32)
    | VertexAttribDivisor(index: U32, divisor: U32)

  datatype GlState = GlState(
    allocatedBuffers: set<nat>,
    allocatedVertexArrays: set<nat>,
    boundBuffers: set<nat>,
    boundVertexArrays: set<nat>,
    nextId: nat,
    failAllocation: bool,
    attribCalls: seq<AttribCall>)
  {
    function Allocated(kind: ObjectKind): set<nat>
    {
      if kind == Buffers then allocatedBuffers else allocatedVertexArrays
    }

    function Bound(kind: ObjectKind): set<nat>
    {
      if kind == Buffers then boundBuffers else boundVertexArrays
    }

    /** Names are handed out from 1 upwards, so 0 is never allocated and
        every allocated name is below the next one; binding 0 unbinds, so 0
        is never bound. */
    predicate Valid()
    {
      && nextId >= 1
      && (forall id :: id in allocatedBuffers ==> 0 < id < nextId)
      && (forall id :: id in allocatedVertexArrays ==> 0 < id < nextId)
      && 0 !in boundBuffers && 0 !in boundVertexArrays
    }
  }

  /** `reset_state`: nothing allocated or bound, names start at 1. */
  function InitialState(): (s: GlState)
    ensures s.Valid()
    ensures forall k :: s.Allocated(k) == {} && s.Bound(k) == {}
  {
    GlState({}, {}, {}, {}, 1, false, [])
  }

  function WithAllocated(s: GlState, kind: ObjectKind, ids: set<nat>): GlState
  {
    if kind == Buffers then s.(allocatedBuffers := ids) else s.(allocatedVertexArrays := ids)
  }

  function WithBound(s: GlState, kind: ObjectKind, ids: set<nat>): GlState
  {
    if kind == Buffers then s.(boundBuffers := ids) else s.(boundVertexArrays := ids)
  }

  /** `glGenBuffers(1, ...)` / `glGenVertexArrays(1, ...)`: the new state and
      the name written back; 0 when allocation is switched to fail. */
  function Generate(s: GlState, kind: ObjectKind): (r: (GlState, nat))
    ensures s.failAllocation ==> r == (s, 0)
    ensures !s.failAllocation ==>
      && r.0.Allocated(kind) == s.Allocated(kind) + {r.1}
      && r.0.nextId == s.nextId + 1
    ensures forall k :: k != kind ==> r.0.Allocated(k) == s.Allocated(k)
    ensures forall k :: r.0.Bound(k) == s.Bound(k)
    ensures r.0.attribCalls == s.attribCalls && r.0.failAllocation == s.failAllocation
  {
    if s.failAllocation then (s, 0)
    else
      var id := s.nextId;
      (WithAllocated(s, kind, s.Allocated(kind) + {id}).(nextId := id + 1), id)
  }

  /** `glDeleteBuffers(1, ...)` / `glDeleteVertexArrays(1, ...)`: the name is
      no longer allocated nor bound; the other kind is untouched. */
  function Delete(s: GlState, kind: ObjectKind, id: nat): (t: GlState)
    ensures t.Allocated(kind) == s.Allocated(kind) - {id}
    ensures t.Bound(kind) == s.Bound(kind) - {id}
    ensures forall k :: k != kind ==> t.Allocated(k) == s.Allocated(k) && t.Bound(k) == s.Bound(k)
    ensures t.nextId == s.nextId && t.attribCalls == s.attribCalls && t.failAllocation == s.failAllocation
  {
    WithBound(WithAllocated(s, kind, s.Allocated(kind) - {id}), kind, s.Bound(kind) - {id})
  }

  /** `glBindBuffer` / `glBindVertexArray`: binding 0 clears every binding of
      that kind, any other name is added to the bound set. */
  function BindState(s: GlState, kind: ObjectKind, id: nat): (t: GlState)
    ensures id == 0 ==> t.Bound(kind) == {}
    ensures id != 0 ==> t.Bound(kind) == s.Bound(kind) + {id}
    ensures forall k :: t.Allocated(k) == s.Allocated(k)
    ensures forall k :: k != kind ==> t.Bound(k) == s.Bound(k)
    ensures t.nextId == s.nextId && t.attribCalls == s.attribCalls && t.failAllocation == s.failAllocation
  {
    WithBound(s, kind, if id == 0 then {} else s.Bound(kind) + {id})
  }

  /** A recorded vertex-attribute call. */
  function Record(s: GlState, calls: seq<AttribCall>): (t: GlState)
    ensures t.attribCalls == s.attribCalls + calls
    ensures t.(attribCalls := s.attribCalls) == s
  {
    s.(attribCalls := s.attribCalls + calls)
  }

  /** A name that generation hands out is nonzero and was allocated under
      neither kind, and generation keeps the driver valid. */
  lemma GenerateFresh(s: GlState, kind: ObjectKind)
    requires s.Valid() && !s.failAllocation
    ensures Generate(s, kind).1 != 0
    ensures forall k :: Generate(s, kind).1 !in s.Allocated(k)
    ensures Generate(s, kind).0.Valid()
  {
  }

  /** Every driver operation keeps the driver valid. */
  lemma OperationsKeepValid(s: GlState, kind: ObjectKind, id: nat, calls: seq<AttribCall>)
    requires s.Valid()
    ensures Generate(s, kind).0.Valid()
    ensures Delete(s, kind, id).Valid()
    ensures BindState(s, kind, id).Valid()
    ensures Record(s, calls).Valid()
  {
  }

  /** Deleting a name just generated gives back the allocation of before. */
  lemma {:induction false} GenerateThenDelete(s: GlState, kind: ObjectKind)
    requires s.Valid() && !s.failAllocation
    ensures forall k :: Delete(Generate(s, kind).0, kind, Generate(s, kind).1).Allocated(k) == s.Allocated(k)
  {
    GenerateFresh(s, kind);
  }

  /** The OpenGL implementation the wrappers call; one per context. */
  class GlDriver {
    var state: GlState

    constructor ()
      ensures state == InitialState()
    {
      state := InitialState();
    }

    /** `set_allocation_failure`. */
    method SetAllocationFailure(fail: bool)
      modifies this
      ensures state == old(state).(failAllocation := fail)
    {
      state := state.(failAllocation := fail);
    }

    method Gen(kind: ObjectKind) returns (id: nat)
      modifies this
      ensures (state, id) == Generate(old(state), kind)
    {
      var r := Generate(state, kind);
      state := r.0;
      id := r.1;
    }

    method DeleteName(kind: ObjectKind, id: nat)
      modifies this
      ensures state == Delete(old(state), kind, id)
    {
      state := Delete(state, kind, id);
    }

    method BindName(kind: ObjectKind, id: nat)
      modifies this
      ensures state == BindState(old(state), kind, id)
    {
      state := BindState(state, kind, id);
    }

    method Call(calls: seq<AttribCall>)
      modifies this
      ensures state == Record(old(state), calls)
    {
      state := Record(state, calls);
    }
  }

  // --------------------------------------------------------------- handles

  /** `BufferHandle`, `VertexArrayHandle` and `GlHandle<Deleter>`: a
      move-only owner of one GL name, which it deletes on destruction. The
      three classes differ only in which delete function they call, which is
      `kind` here. */
  class Handle {
    const kind: ObjectKind
    var id: nat

    predicate IsValid()
      reads this
    {
      id != 0
    }

    /** The explicit constructor from a name. */
    constructor (kind: ObjectKind, identifier: nat)
      ensures this.kind == kind && id == identifier
      ensures IsValid() <==> identifier != 0
    {
      this.kind := kind;
      id := identifier;
    }

    /** `VertexArrayHandle()`: owns nothing. */
    constructor Default()
      ensures kind == VertexArrays && id == 0 && !IsValid()
    {
      kind := VertexArrays;
      id := 0;
    }

    /** Move construction: `std::exchange(other.m_id, 0)`. */
    constructor Move(other: Handle)
      modifies other
      ensures kind == other.kind
      ensures id == old(other.id) && other.id == 0 && !other.IsValid()
    {
      kind := other.kind;
      id := other.id;
      new;
      other.id := 0;
    }

    /** Move assignment: unless it is a self-move, delete the name held
        (if any), take the source's name and leave the source empty. */
    method MoveAssign(other: Handle, driver: GlDriver)
      requires other.kind == kind
      modifies this, other, driver
      ensures this == other ==> id == old(id) && driver.state == old(driver.state)
      ensures this != other ==>
        && id == old(other.id) && other.id == 0
        && driver.state == (if old(id) != 0 then Delete(old(driver.state), kind, old(id)) else old(driver.state))
    {
      if this != other {
        if id != 0 {
          driver.DeleteName(kind, id);
        }
        id := other.id;
        other.id := 0;
      }
    }

    /** The destructor: deletes the name exactly when it is nonzero. */
    method Destroy(driver: GlDriver)
      modifies driver
      ensures driver.state == (if id != 0 then Delete(old(driver.state), kind, id) else old(driver.state))
      ensures id != 0 ==> id !in driver.state.Allocated(kind) && id !in driver.state.Bound(kind)
    {
      if id != 0 {
        driver.DeleteName(kind, id);
      }
    }
  }

  // --------------------------------------------------------- vertex buffer

  class VertexBuffer {
    const handle: Handle
    const target: U32

    constructor Wrap(handle: Handle, target: U32)
      ensures this.handle == handle && this.target == target
    {
      this.handle := handle;
      this.target := target;
    }

    /** `VertexBuffer::create`: generates a name and fails with
        `BufferCreationError` exactly when the driver writes back 0. */
    static method Create(driver: GlDriver, target: U32 := GL_ARRAY_BUFFER) returns (r: Result<VertexBuffer, CreationError>)
      modifies driver
      ensures var g := Generate(old(driver.state), Buffers);
        && driver.state == g.0
        && (r.Failure? <==> g.1 == 0)
        && (r.Failure? ==> r.error == BufferCreationError)
        && (r.Success? ==>
              && fresh(r.value) && fresh(r.value.handle)
              && r.value.handle.kind == Buffers && r.value.handle.id == g.1
              && r.value.handle.IsValid() && r.value.target == target)
    {
      var id := driver.Gen(Buffers);
      if id == 0 {
        return Failure(BufferCreationError);
      }
      var h := new Handle(Buffers, id);
      var b := new VertexBuffer.Wrap(h, target);
      r := Success(b);
    }

    method Bind(driver: GlDriver)
      modifies driver
      ensures driver.state == BindState(old(driver.state), Buffers, handle.id)
    {
      driver.BindName(Buffers, handle.id);
    }

    method Unbind(driver: GlDriver)
      modifies driver
      ensures driver.state == BindState(old(driver.state), Buffers, 0)
      ensures driver.state.boundBuffers == {}
    {
      driver.BindName(Buffers, 0);
    }
  }

  /** `calculate_buffer_size<T>`: `element_count * sizeof(T)` in `size_t`. */
  function CalculateBufferSize(elementCount: U64, elementSize: nat): (size: U64)
    ensures elementCount * elementSize < TwoTo64 ==> size == elementCount * elementSize
    ensures (elementCount * elementSize - size) % TwoTo64 == 0
  {
    (elementCount * elementSize) % TwoTo64
  }

  /** `calculate_element_offset<T>`: `element_index * sizeof(T)` in `size_t`. */
  function CalculateElementOffset(elementIndex: U64, elementSize: nat): (offset: U64)
    ensures elementIndex * elementSize < TwoTo64 ==> offset == elementIndex * elementSize
    ensures (elementIndex * elementSize - offset) % TwoTo64 == 0
  {
    (elementIndex * elementSize) % TwoTo64
  }

  /** When the buffer size does not wrap, every element of the buffer lies
      wholly inside it. */
  lemma ElementWithinBuffer(elementCount: U64, elementIndex: U64, elementSize: nat)
    requires elementIndex < elementCount
    requires elementCount * elementSize < TwoTo64
    ensures CalculateElementOffset(elementIndex, elementSize) + elementSize
            <= CalculateBufferSize(elementCount, elementSize)
  {
    assert (elementIndex + 1) * elementSize <= elementCount * elementSize;
  }

  /** The size wraps in `size_t`: 2^62 four-byte elements need 0 bytes. */
  lemma BufferSizeWraps()
    ensures CalculateBufferSize(0x4000_0000_0000_0000, 4) == 0
  {
  }

  // ---------------------------------------------------------- vertex array

  class VertexArray {
    const handle: Handle

    constructor Wrap(handle: Handle)
      ensures this.handle == handle
    {
      this.handle := handle;
    }

    /** `VertexArray::create`: fails with `VertexArrayCreationError` exactly
        when the driver writes back 0. */
    static method Create(driver: GlDriver) returns (r: Result<VertexArray, CreationError>)
      modifies driver
      ensures var g := Generate(old(driver.state), VertexArrays);
        && driver.state == g.0
        && (r.Failure? <==> g.1 == 0)
        && (r.Failure? ==> r.error == VertexArrayCreationError)
        && (r.Success? ==>
              && fresh(r.value) && fresh(r.value.handle)
              && r.value.handle.kind == VertexArrays && r.value.handle.id == g.1
              && r.value.handle.IsValid())
    {
      var id := driver.Gen(VertexArrays);
      if id == 0 {
        return Failure(VertexArrayCreationError);
      }
      var h := new Handle(VertexArrays, id);
      var a := new VertexArray.Wrap(h);
      r := Success(a);
    }

    method Bind(driver: GlDriver)
      modifies driver
      ensures driver.state == BindState(old(driver.state), VertexArrays, handle.id)
    {
      driver.BindName(VertexArrays, handle.id);
    }

    /** `VertexArray::unbind` (static). */
    static method Unbind(driver: GlDriver)
      modifies driver
      ensures driver.state == BindState(old(driver.state), VertexArrays, 0)
      ensures driver.state.boundVertexArrays == {}
    {
      driver.BindName(VertexArrays, 0);
    }

    method EnableAttribute(index: U32, driver: GlDriver)
      modifies driver
      ensures driver.state == Record(BindState(old(driver.state), VertexArrays, handle.id), [EnableVertexAttribArray(index)])
    {
      Bind(driver);
      driver.Call([EnableVertexAttribArray(index)]);
    }

    method DisableAttribute(index: U32, driver: GlDriver)
      modifies driver
      ensures driver.state == Record(BindState(old(driver.state), VertexArrays, handle.id), [DisableVertexAttribArray(index)])
    {
      Bind(driver);
      driver.Call([DisableVertexAttribArray(index)]);
    }

    /** `set_attribute_pointer<T>` (and `set_attribute<T>`, which forwards to
        it): binds, describes the attribute with `kGlTypeV<T>`, enables it. */
    method SetAttribute(t: NumericType, index: U32, size: int, stride: int, offsetBytes: U64, normalized: bool, driver: GlDriver)
      requires IsGlMappable(t)
      modifies driver
      ensures driver.state == Record(BindState(old(driver.state), VertexArrays, handle.id),
        [VertexAttribPointer(index, size, GlTypeOf(t), normalized, stride, offsetBytes), EnableVertexAttribArray(index)])
    {
      Bind(driver);
      driver.Call([VertexAttribPointer(index, size, GlTypeOf(t), normalized, stride, offsetBytes),
                   EnableVertexAttribArray(index)]);
    }

    /** `set_float_attribute`: never normalised. */
    method SetFloatAttribute(index: U32, size: int, stride: int, offsetBytes: U64, driver: GlDriver)
      modifies driver
      ensures driver.state == Record(BindState(old(driver.state), VertexArrays, handle.id),
        [VertexAttribPointer(index, size, GL_FLOAT, false, stride, offsetBytes), EnableVertexAttribArray(index)])
    {
      SetAttribute(Float, index, size, stride, offsetBytes, false, driver);
    }

    /** `set_int_attribute`. */
    method SetIntAttribute(index: U32, size: int, stride: int, offsetBytes: U64, driver: GlDriver)
      modifies driver
      ensures driver.state == Record(BindState(old(driver.state), VertexArrays, handle.id),
        [VertexAttribPointer(index, size, GL_INT, false, stride, offsetBytes), EnableVertexAttribArray(index)])
    {
      SetAttribute(Int32, index, size, stride, offsetBytes, false, driver);
    }

    /** `set_uint_attribute`. */
    method SetUintAttribute(index: U32, size: int, stride: int, offsetBytes: U64, driver: GlDriver)
      modifies driver
      ensures driver.state == Record(BindState(old(driver.state), VertexArrays, handle.id),
        [VertexAttribPointer(index, size, GL_UNSIGNED_INT, false, stride, offsetBytes), EnableVertexAttribArray(index)])
    {
      SetAttribute(UInt32, index, size, stride, offsetBytes, false, driver);
    }

    /** `set_member_attribute`: the stride is the vertex size and the offset
        the member's offset, both given here as numbers. */
    method SetMemberAttribute(memberType: NumericType, index: U32, components: int, vertexSize: int, memberOffset: U64, normalized: bool, driver: GlDriver)
      requires IsGlMappable(memberType)
      modifies driver
      ensures driver.state == Record(BindState(old(driver.state), VertexArrays, handle.id),
        [VertexAttribPointer(index, components, GlTypeOf(memberType), normalized, vertexSize, memberOffset),
         EnableVertexAttribArray(index)])
    {
      SetAttribute(memberType, index, components, vertexSize, memberOffset, normalized, driver);
    }

    method SetAttributeDivisor(index: U32, divisor: U32, driver: GlDriver)
      modifies driver
      ensures driver.state == Record(BindState(old(driver.state), VertexArrays, handle.id), [VertexAttribDivisor(index, divisor)])
    {
      Bind(driver);
      driver.Call([VertexAttribDivisor(index, divisor)]);
    }
  }

  // --------------------------------------------------------- scoped binder

  /** `ScopedBinder<T>` (and the `Bind` factory): binds the object on
      construction and unbinds its kind at the end of the scope. The object
      is represented by its handle. */
  class ScopedBinder {
    const obj: Handle

    constructor (obj: Handle, driver: GlDriver)
      modifies driver
      ensures this.obj == obj
      ensures driver.state == BindState(old(driver.state), obj.kind, obj.id)
      ensures obj.id != 0 ==> obj.id in driver.state.Bound(obj.kind)
    {
      this.obj := obj;
      new;
      driver.BindName(obj.kind, obj.id);
    }

    /** The destructor. */
    method End(driver: GlDriver)
      modifies driver
      ensures driver.state == BindState(old(driver.state), obj.kind, 0)
      ensures driver.state.Bound(obj.kind) == {}
    {
      driver.BindName(obj.kind, 0);
    }
  }

  // ------------------------------------------------------------- builder

  const MaxAttributes: U32 := 16

  /** `has_room_for_attributes`: the sum is taken in `GLuint`, so it wraps. */
  function HasRoom(nextIndex: U32, count: U32): (room: bool)
    ensures nextIndex + count < TwoTo32 ==> (room <==> nextIndex + count <= MaxAttributes)
    ensures nextIndex + count >= TwoTo32 ==> (room <==> nextIndex + count - TwoTo32 <= MaxAttributes)
  {
    (nextIndex + count) % TwoTo32 <= MaxAttributes
  }

  /** Without wrap-around the check is exactly `count + c <= 16`. */
  lemma HasRoomWithoutWrap(nextIndex: U32, count: U32)
    requires nextIndex + count < TwoTo32
    ensures HasRoom(nextIndex, count) <==> nextIndex + count <= MaxAttributes
  {
  }

  /** With wrap-around a huge request is accepted: one attribute in use and
      2^32 - 1 more asked for still "has room". */
  lemma HasRoomWraps()
    ensures HasRoom(1, TwoTo32 - 1)
    ensures 1 + (TwoTo32 - 1) > MaxAttributes
  {
  }

  class VertexArrayBuilder {
    const vao: VertexArray
    var nextIndex: U32

    /** `m_vao{ std::move(vao) }`: the builder's vertex array takes over
        the argument's name and leaves the argument's handle at 0. */
    constructor (vao: VertexArray)
      modifies vao.handle
      ensures fresh(this.vao) && fresh(this.vao.handle)
      ensures this.vao.handle.kind == vao.handle.kind && this.vao.handle.id == old(vao.handle.id)
      ensures vao.handle.id == 0 && nextIndex == 0
    {
      var h := new Handle.Move(vao.handle);
      this.vao := new VertexArray.Wrap(h);
      nextIndex := 0;
    }

    /** `add_attribute`: configures attribute number `nextIndex`, then counts
        it (in `GLuint`). */
    method AddAttribute(memberType: NumericType, components: int, vertexSize: int, memberOffset: U64, normalized: bool, driver: GlDriver)
      requires IsGlMappable(memberType)
      modifies this, driver
      ensures nextIndex == (old(nextIndex) + 1) % TwoTo32
      ensures driver.state == Record(BindState(old(driver.state), VertexArrays, vao.handle.id),
        [VertexAttribPointer(old(nextIndex), components, GlTypeOf(memberType), normalized, vertexSize, memberOffset),
         EnableVertexAttribArray(old(nextIndex))])
    {
      vao.SetMemberAttribute(memberType, nextIndex, components, vertexSize, memberOffset, normalized, driver);
      nextIndex := (nextIndex + 1) % TwoTo32;
    }

    /** `set_divisor`: sets the divisor of the last attribute added; does
        nothing before the first one. */
    method SetDivisor(divisor: U32, driver: GlDriver)
      modifies driver
      ensures nextIndex == 0 ==> driver.state == old(driver.state)
      ensures nextIndex > 0 ==>
        driver.state == Record(BindState(old(driver.state), VertexArrays, vao.handle.id), [VertexAttribDivisor(nextIndex - 1, divisor)])
    {
      if nextIndex > 0 {
        vao.SetAttributeDivisor(nextIndex - 1, divisor, driver);
      }
    }

    /** `build() &&`: moves the vertex array out, so the result holds the
        name and the builder's handle is left at 0; destroying the builder
        afterwards deletes nothing. */
    method Build() returns (v: VertexArray)
      modifies vao.handle
      ensures fresh(v) && fresh(v.handle)
      ensures v.handle.kind == vao.handle.kind && v.handle.id == old(vao.handle.id)
      ensures vao.handle.id == 0 && !vao.handle.IsValid()
    {
      var h := new Handle.Move(vao.handle);
      v := new VertexArray.Wrap(h);
    }

    method CurrentAttributeCount() returns (n: U32)
      ensures n == nextIndex
    {
      n := nextIndex;
    }

    method HasRoomForAttributes(count: U32) returns (room: bool)
      ensures room == HasRoom(nextIndex, count)
    {
      room := (nextIndex + count) % TwoTo32 <= MaxAttributes;
    }
  }

  /** `MakeVertexArrayBuilder`: forwards the creation error, otherwise wraps
      the new vertex array in a builder with no attributes. */
  method MakeVertexArrayBuilder(driver: GlDriver) returns (r: Result<VertexArrayBuilder, CreationError>)
    modifies driver
    ensures var g := Generate(old(driver.state), VertexArrays);
      && driver.state == g.0
      && (r.Failure? <==> g.1 == 0)
      && (r.Failure? ==> r.error == VertexArrayCreationError)
      && (r.Success? ==>
            && fresh(r.value) && fresh(r.value.vao) && fresh(r.value.vao.handle) && r.value.nextIndex == 0
            && r.value.vao.handle.kind == VertexArrays && r.value.vao.handle.id == g.1)
  {
    var vao := VertexArray.Create(driver);
    if vao.Failure? {
      return Failure(vao.error);
    }
    var b := new VertexArrayBuilder(vao.value);
    r := Success(b);
  }

  // ------------------------------------------------------ attribute layout

  /** `AttributeLayout<V>::Attribute`. */
  datatype Attribute = Attribute(offset: U64, size: U64, glType: U32, components: int, normalized: bool)

  /** `AttributeLayout<V>::make_attribute<M>`; `memberSize` is `sizeof(M)`. */
  function MakeAttribute(memberType: NumericType, memberSize: U64, offset: U64, components: int, normalized: bool := false): (a: Attribute)
    requires IsGlMappable(memberType)
    ensures NumericTypeOfGl(a.glType) == Some(memberType)
    ensures a.offset == offset && a.size == memberSize
    ensures a.components == components && a.normalized == normalized
  {
    GlTypeRoundTrip(memberType);
    Attribute(offset, memberSize, GlTypeOf(memberType), components, normalized)
  }

  // ------------------------------------------------------------ scenarios

  /** A moved-from handle owns nothing, so of the two destructors only the
      destination's deletes, and the driver ends with the allocation it
      started from: the name is released exactly once. */
  method MovedHandleReleasedOnce(driver: GlDriver, kind: ObjectKind) returns (sourceId: nat, destinationId: nat)
    requires driver.state.Valid() && !driver.state.failAllocation
    modifies driver
    ensures sourceId == 0 && destinationId != 0
    ensures destinationId !in old(driver.state).Allocated(kind)
    ensures forall k :: driver.state.Allocated(k) == old(driver.state).Allocated(k)
  {
    GenerateThenDelete(driver.state, kind);
    GenerateFresh(driver.state, kind);
    var id := driver.Gen(kind);
    var source := new Handle(kind, id);
    var destination := new Handle.Move(source);
    sourceId, destinationId := source.id, destination.id;
    source.Destroy(driver);
    destination.Destroy(driver);
  }

  /** Move-assigning onto a handle that already owns a name deletes that
      name first, so of the two names generated only the moved one stays
      allocated. */
  method MoveAssignReleasesOldName(driver: GlDriver, kind: ObjectKind) returns (released: nat, kept: nat)
    requires driver.state.Valid() && !driver.state.failAllocation
    modifies driver
    ensures released != 0 && kept != 0 && released != kept
    ensures kept !in old(driver.state).Allocated(kind)
    ensures driver.state.Allocated(kind) == old(driver.state).Allocated(kind) + {kept}
    ensures forall k :: k != kind ==> driver.state.Allocated(k) == old(driver.state).Allocated(k)
  {
    ghost var s0 := driver.state;
    GenerateFresh(driver.state, kind);
    var first := driver.Gen(kind);
    GenerateFresh(driver.state, kind);
    var second := driver.Gen(kind);
    var target := new Handle(kind, first);
    var source := new Handle(kind, second);
    target.MoveAssign(source, driver);
    source.Destroy(driver);
    released, kept := first, target.id;
    assert driver.state.Allocated(kind) == s0.Allocated(kind) + {first, second} - {first};
  }

  /** With allocation failing, both factories report their error and the
      driver is left exactly as it was. */
  method FailedCreation(driver: GlDriver) returns (buffer: Result<VertexBuffer, CreationError>, vertexArray: Result<VertexArray, CreationError>)
    requires driver.state.failAllocation
    modifies driver
    ensures buffer == Failure(BufferCreationError)
    ensures vertexArray == Failure(VertexArrayCreationError)
    ensures driver.state == old(driver.state)
  {
    buffer := VertexBuffer.Create(driver);
    vertexArray := VertexArray.Create(driver);
  }

  /** Any object that owns a name is bound inside a scope, nothing of its
      kind is bound after it, and no name is allocated or released. */
  method ScopedBinding(driver: GlDriver, obj: Handle) returns (boundInside: bool, boundAfter: set<nat>)
    requires obj.IsValid()
    modifies driver
    ensures boundInside && boundAfter == {}
    ensures forall k :: driver.state.Allocated(k) == old(driver.state).Allocated(k)
  {
    var scope := new ScopedBinder(obj, driver);
    boundInside := obj.id in driver.state.Bound(obj.kind);
    scope.End(driver);
    boundAfter := driver.state.Bound(obj.kind);
  }

  /** On any working driver, a builder numbers two attributes 0 and 1 and
      gives the divisor to the last; after `build()` the result owns the new
      name and the builder owns none. */
  method BuilderNumbersAttributes(driver: GlDriver) returns (count: U32, builtId: nat, builderId: nat)
    requires driver.state.Valid() && !driver.state.failAllocation
    modifies driver
    ensures count == 2 && builtId != 0 && builderId == 0
    ensures builtId in driver.state.allocatedVertexArrays - old(driver.state).allocatedVertexArrays
    ensures driver.state.attribCalls == old(driver.state).attribCalls + [
      VertexAttribPointer(0, 3, GL_FLOAT, false, 40, 0), EnableVertexAttribArray(0),
      VertexAttribPointer(1, 1, GL_INT, false, 40, 36), EnableVertexAttribArray(1),
      VertexAttribDivisor(1, 1)]
  {
    GenerateFresh(driver.state, VertexArrays);
    var made := MakeVertexArrayBuilder(driver);
    if made.Failure? {
      assert false;
      return;
    }
    var builder := made.value;
    builder.AddAttribute(Float, 3, 40, 0, false, driver);
    builder.AddAttribute(Int32, 1, 40, 36, false, driver);
    builder.SetDivisor(1, driver);
    count := builder.CurrentAttributeCount();
    var built := builder.Build();
    builtId, builderId := built.handle.id, builder.vao.handle.id;
  }
}
