/** Model of the type-erased `Drawer` of include/renderer/drawer/drawer.hpp.

    A `Drawer` holds one concrete drawing strategy (a `ConcreteDrawer<Func>`)
    either inline, in a 128-byte array, or in a heap box owned by a
    `std::unique_ptr`. The byte-level placement tricks are abstracted into the
    tagged union `Holder`; what the bytes or the pointer stand for is an
    `Option<Strategy>`. Two ghost counters make ownership checkable: `live`
    counts the strategy objects this drawer constructed or took over and has not
    destroyed (objects it leaked stay counted), `destroyed` the destructors it
    ran. The copy operations are modelled as written, defects included. */
module Drawer {
  import opened Wrappers

  /** kBytesForStackDrawer: the inline capacity. */
  const BytesForStackDrawer: nat := 128

  /** A concrete strategy `ConcreteDrawer<Func>`: which callable it wraps
      (its type and captured state) and `sizeof(ConcreteDrawer<Func>)`. */
  datatype Strategy = Strategy(callable: nat, size: nat)

  /** The `GLFWwindow const &` handed to every strategy; opaque here. */
  type Window = nat

  /** One run of a strategy, with the arguments it received. */
  datatype Invocation = Invocation(strategy: Strategy, window: Window, deltaTime: int)

  /** Running a strategy directly: `m_drawStrategy(window, delta_time)`. */
  function Run(s: Strategy, window: Window, deltaTime: int): Invocation
  {
    Invocation(s, window, deltaTime)
  }

  /** What a `Draw` call did: ran a strategy, or dispatched through storage
      holding no object (a null `unique_ptr`, zeroed bytes): undefined behaviour. */
  datatype DrawOutcome = Invoked(call: Invocation) | DrawUndefined

  datatype StorageMode = HeapMode | InlineMode

  /** The variant `m_concreteDrawHolder`: a `unique_ptr` (possibly null) or the
      byte array (holding an object's bytes, or zeroed). */
  datatype Holder = Heap(box: Option<Strategy>) | Inline(slot: Option<Strategy>)
  {
    function Mode(): StorageMode
    {
      if Heap? then HeapMode else InlineMode
    }

    function Held(): Option<Strategy>
    {
      if Heap? then box else slot
    }

    /** 1 when destroying or overwriting this alternative deletes a strategy:
        only a non-null `unique_ptr` does; a byte array runs no destructor. */
    function HeapOwned(): nat
    {
      if Heap? && box.Some? then 1 else 0
    }
  }

  /** How `Draw` dispatches: the held copy, in either storage mode, receives
      the window and the time step unchanged. */
  function Dispatch(h: Holder, window: Window, deltaTime: int): (o: DrawOutcome)
    ensures h.Held().Some? ==> o == Invoked(Run(h.Held().value, window, deltaTime))
    ensures h.Held().None? ==> o == DrawUndefined
    ensures o.Invoked? ==> o.call.window == window && o.call.deltaTime == deltaTime
  {
    match h
    case Heap(Some(s)) => Invoked(Run(s, window, deltaTime))
    case Inline(Some(s)) => Invoked(Run(s, window, deltaTime))
    case _ => DrawUndefined
  }

  /** The `std::optional<std::byte *>` passed to `Clone`, when present:
      a null pointer or the address of an inline buffer. */
  datatype Address = NullAddress | BufferAddress

  datatype CloneOutcome =
    | Placed(copy: Strategy)  // copy constructed at the address; the returned optional is empty
    | Boxed(copy: Strategy)   // no address: the returned optional holds a heap copy
    | CloneUndefined          // `*address` read on an empty optional, or construction at nullptr
    | AssertFailed            // `assert(*address != nullptr)` fails

  /** `ConcreteDrawer::Clone(address)`. The assertion dereferences the optional
      before `if (address)` checks it, so with assertions compiled in a call
      without an address is undefined; without them it returns a heap copy. */
  function Clone(self: Strategy, address: Option<Address>, assertsEnabled: bool): (r: CloneOutcome)
    ensures r.Placed? || r.Boxed? ==> r.copy == self
    ensures r.Placed? <==> address == Some(BufferAddress)
    ensures r.Boxed? <==> address.None? && !assertsEnabled
    ensures r.AssertFailed? <==> address == Some(NullAddress) && assertsEnabled
  {
    if assertsEnabled && address.None? then CloneUndefined
    else if assertsEnabled && address == Some(NullAddress) then AssertFailed
    else if address == Some(BufferAddress) then Placed(self)
    else if address.Some? then CloneUndefined
    else Boxed(self)
  }

  datatype Exception = RuntimeError(what: string) | BadVariantAccess

  /** How a copy or assignment ended. */
  datatype Status = Done | Threw(exception: Exception) | UndefinedBehaviour

  class Drawer {
    var holder: Holder
    /** Strategy objects this drawer constructed or took over and has not destroyed. */
    ghost var live: int
    /** Strategy destructors this drawer has run. */
    ghost var destroyed: nat

    ghost predicate Valid()
      reads this
    {
      0 <= live && holder.HeapOwned() <= live
    }

    /** Ownership as intended: exactly the held object is alive, nothing leaked. */
    ghost predicate SoleOwner()
      reads this
    {
      live == if holder.Held().Some? then 1 else 0
    }

    /** `explicit Drawer(Func drawing_function)`: inline exactly when the
        strategy fits the 128-byte buffer, otherwise boxed on the heap. */
    constructor (f: Strategy)
      ensures Valid() && SoleOwner() && destroyed == 0
      ensures holder.Held() == Some(f)
      ensures holder.Mode() == InlineMode <==> f.size <= BytesForStackDrawer
    {
      if f.size <= BytesForStackDrawer {
        holder := Inline(Some(f));
      } else {
        holder := Heap(Some(f));
      }
      live, destroyed := 1, 0;
    }

    /** A drawer whose holder was assigned a freshly cloned heap box. */
    constructor Adopting(s: Strategy)
      ensures holder == Heap(Some(s)) && live == 1 && destroyed == 0
    {
      holder, live, destroyed := Heap(Some(s)), 1, 0;
    }

    /** The copy constructor. Line 61 tests the new drawer's own holder, which
        is still the default null `unique_ptr`, so the heap branch is always
        taken: an inline source makes `std::get` throw, a null source box is
        dereferenced, and otherwise `Clone()` without an address runs. */
    static method CopyConstruct(other: Drawer, assertsEnabled: bool) returns (status: Status, copy: Drawer?)
      requires other.Valid()
      ensures status == Done <==> copy != null
      ensures other.holder.Inline? ==> status == Threw(BadVariantAccess)
      ensures other.holder == Heap(None) ==> status == UndefinedBehaviour
      ensures other.holder.Heap? && other.holder.box.Some? && assertsEnabled ==> status == UndefinedBehaviour
      ensures other.holder.Heap? && other.holder.box.Some? && !assertsEnabled ==>
        status == Done && copy != null && fresh(copy) && copy.holder == other.holder
        && copy.Valid() && copy.SoleOwner() && copy.destroyed == 0
    {
      if other.holder.Inline? {
        return Threw(BadVariantAccess), null;
      }
      if other.holder.box.None? {
        return UndefinedBehaviour, null;
      }
      var temp := Clone(other.holder.box.value, None, assertsEnabled);
      if temp.Boxed? {
        copy := new Drawer.Adopting(temp.copy);
        status := Done;
      } else if temp.Placed? {
        status, copy := Threw(RuntimeError("expected std::unique_ptr but did not receive")), null;
      } else {
        status, copy := UndefinedBehaviour, null;
      }
    }

    /** The move constructor (defaulted): the variant is moved. A heap box
        changes owner and leaves a null pointer behind; a byte array is copied,
        so both drawers then hold the same bytes and the new one constructed
        no object. */
    constructor Move(other: Drawer)
      requires other.Valid()
      modifies other
      ensures Valid() && other.Valid() && destroyed == 0
      ensures holder == old(other.holder)
      ensures live == old(other.holder).HeapOwned()
      ensures other.holder == if old(other.holder).Heap? then Heap(None) else old(other.holder)
      ensures other.live == old(other.live) - old(other.holder).HeapOwned()
      ensures other.destroyed == old(other.destroyed)
    {
      holder := other.holder;
      live := other.holder.HeapOwned();
      destroyed := 0;
      new;
      if other.holder.Heap? {
        other.live := other.live - other.holder.HeapOwned();
        other.holder := Heap(None);
      }
    }

    /** Copy assignment. A heap-mode source is cloned and the clone replaces
        the holder. An inline-mode source is cloned into this drawer's own
        buffer (`std::get` throws if this drawer is heap-mode), and then the
        holder is overwritten with a fresh zeroed array, discarding the clone
        and leaking it together with the object it was constructed over. */
    method CopyAssign(other: Drawer, assertsEnabled: bool) returns (status: Status)
      requires Valid() && other.Valid()
      modifies this
      ensures Valid()
      ensures this == other ==>
        status == Done && holder == old(holder) && live == old(live) && destroyed == old(destroyed)
      ensures this != other && other.holder == Heap(None) ==>
        status == UndefinedBehaviour && unchanged(this)
      ensures this != other && other.holder.Heap? && other.holder.box.Some? && assertsEnabled ==>
        status == UndefinedBehaviour && unchanged(this)
      ensures this != other && other.holder.Heap? && other.holder.box.Some? && !assertsEnabled ==>
        && status == Done
        && holder == other.holder
        && destroyed == old(destroyed) + old(holder).HeapOwned()
        && live == old(live) - old(holder).HeapOwned() + 1
      ensures this != other && other.holder.Inline? && old(holder).Heap? ==>
        status == Threw(BadVariantAccess) && unchanged(this)
      ensures this != other && other.holder == Inline(None) && old(holder).Inline? ==>
        status == UndefinedBehaviour && unchanged(this)
      ensures this != other && other.holder.Inline? && other.holder.slot.Some? && old(holder).Inline? ==>
        && status == Done
        && holder == Inline(None)
        && live == old(live) + 1
        && destroyed == old(destroyed)
    {
      if this == other {
        return Done;
      }
      if other.holder.Heap? {
        if other.holder.box.None? {
          return UndefinedBehaviour;
        }
        var temp := Clone(other.holder.box.value, None, assertsEnabled);
        if temp.Boxed? {
          // assigning the unique_ptr deletes a previously boxed strategy;
          // leaving the byte-array alternative runs no destructor
          var released := holder.HeapOwned();
          holder := Heap(Some(temp.copy));
          destroyed := destroyed + released;
          live := live - released + 1;
          status := Done;
        } else if temp.Placed? {
          status := Threw(RuntimeError("Clone() returned null pointer"));
        } else {
          status := UndefinedBehaviour;
        }
      } else {
        if holder.Heap? {
          // std::get<array> on this drawer's holder, evaluated as Clone's argument
          return Threw(BadVariantAccess);
        }
        if other.holder.slot.None? {
          // virtual call through zeroed bytes
          return UndefinedBehaviour;
        }
        var cloned := Clone(other.holder.slot.value, Some(BufferAddress), assertsEnabled);
        if cloned.Placed? {
          // constructed over whatever this buffer held, which is not destroyed
          live := live + 1;
        }
        // `m_concreteDrawHolder = NewStackStorage;`
        holder := Inline(None);
        status := Done;
      }
    }

    /** Move assignment (defaulted): the variant is move-assigned. A boxed
        strategy this drawer held is deleted; inline bytes it held are simply
        overwritten. Self-move changes nothing. */
    method MoveAssign(other: Drawer)
      requires Valid() && other.Valid()
      modifies this, other
      ensures Valid() && other.Valid()
      ensures this == other ==>
        holder == old(holder) && live == old(live) && destroyed == old(destroyed)
      ensures this != other ==>
        && holder == old(other.holder)
        && other.holder == (if old(other.holder).Heap? then Heap(None) else old(other.holder))
        && destroyed == old(destroyed) + old(holder).HeapOwned()
        && live == old(live) - old(holder).HeapOwned() + old(other.holder).HeapOwned()
        && other.live == old(other.live) - old(other.holder).HeapOwned()
        && other.destroyed == old(other.destroyed)
    {
      if this != other {
        var released := holder.HeapOwned();
        var taken := other.holder.HeapOwned();
        holder := other.holder;
        destroyed := destroyed + released;
        live := live - released + taken;
        if other.holder.Heap? {
          other.holder := Heap(None);
          other.live := other.live - taken;
        }
      }
    }

    /** The destructor (defaulted): destroys the variant. A boxed strategy is
        deleted; an inline strategy's destructor never runs. */
    method Destroy()
      requires Valid()
      modifies this
      ensures holder == old(holder)
      ensures destroyed == old(destroyed) + old(holder).HeapOwned()
      ensures live == old(live) - old(holder).HeapOwned()
      ensures old(holder).Inline? ==> destroyed == old(destroyed) && live == old(live)
    {
      var released := holder.HeapOwned();
      destroyed := destroyed + released;
      live := live - released;
    }

    /** `Draw(window, delta_time)`: dispatch to whichever copy is held. */
    method Draw(window: Window, deltaTime: int) returns (outcome: DrawOutcome)
      ensures outcome == Dispatch(holder, window, deltaTime)
    {
      if holder.Heap? {
        outcome := if holder.box.Some? then Invoked(Run(holder.box.value, window, deltaTime)) else DrawUndefined;
      } else {
        outcome := if holder.slot.Some? then Invoked(Run(holder.slot.value, window, deltaTime)) else DrawUndefined;
      }
    }
  }

  /** A freshly built drawer runs exactly its strategy with the caller's
      arguments, inline-sized or not. */
  method DrawAfterConstruction(f: Strategy, window: Window, deltaTime: int) returns (outcome: DrawOutcome)
    ensures outcome == Invoked(Run(f, window, deltaTime))
  {
    var d := new Drawer(f);
    outcome := d.Draw(window, deltaTime);
  }

  /** The storage boundary: a 128-byte strategy is stored inline, a 129-byte one
      on the heap, and both draw alike. */
  method StorageBoundary(callable: nat, window: Window, deltaTime: int)
    returns (atLimit: StorageMode, overLimit: StorageMode, drawAt: DrawOutcome, drawOver: DrawOutcome)
    ensures atLimit == InlineMode && overLimit == HeapMode
    ensures drawAt == Invoked(Run(Strategy(callable, 128), window, deltaTime))
    ensures drawOver == Invoked(Run(Strategy(callable, 129), window, deltaTime))
  {
    var a := new Drawer(Strategy(callable, 128));
    var b := new Drawer(Strategy(callable, 129));
    atLimit, overLimit := a.holder.Mode(), b.holder.Mode();
    drawAt := a.Draw(window, deltaTime);
    drawOver := b.Draw(window, deltaTime);
  }

  /** Copy-assigning an inline drawer to another inline drawer completes
      without error, yet leaves the target holding zeroed bytes: its next draw
      is undefined, and both its old strategy and the clone are leaked. */
  method InlineCopyAssignDiscardsClone(f: Strategy, g: Strategy, window: Window, deltaTime: int, assertsEnabled: bool)
    returns (status: Status, outcome: DrawOutcome, ghost leaked: int)
    requires f.size <= BytesForStackDrawer && g.size <= BytesForStackDrawer
    ensures status == Done
    ensures outcome == DrawUndefined
    ensures leaked == 2
  {
    var source := new Drawer(f);
    var target := new Drawer(g);
    status := target.CopyAssign(source, assertsEnabled);
    outcome := target.Draw(window, deltaTime);
    leaked := target.live;
  }

  /** Copy-assigning from a heap drawer gives the target an independent copy of
      the source's strategy when assertions are compiled out, and is undefined
      when they are compiled in. */
  method HeapCopyAssign(f: Strategy, g: Strategy, window: Window, deltaTime: int, assertsEnabled: bool)
    returns (status: Status, outcome: DrawOutcome)
    requires f.size > BytesForStackDrawer
    ensures assertsEnabled ==> status == UndefinedBehaviour && outcome == Invoked(Run(g, window, deltaTime))
    ensures !assertsEnabled ==> status == Done && outcome == Invoked(Run(f, window, deltaTime))
  {
    var source := new Drawer(f);
    var target := new Drawer(g);
    status := target.CopyAssign(source, assertsEnabled);
    outcome := target.Draw(window, deltaTime);
  }

  /** Copy-constructing from any inline drawer throws `std::bad_variant_access`. */
  method InlineCopyConstructThrows(f: Strategy, assertsEnabled: bool) returns (status: Status)
    requires f.size <= BytesForStackDrawer
    ensures status == Threw(BadVariantAccess)
  {
    var source := new Drawer(f);
    var copy;
    status, copy := Drawer.CopyConstruct(source, assertsEnabled);
  }

  /** Moving a drawer: the destination draws the source's strategy. A boxed
      strategy leaves the source empty; inline bytes are duplicated, so the
      source still draws the same strategy afterwards. */
  method MoveThenDraw(f: Strategy, window: Window, deltaTime: int)
    returns (fromMoved: DrawOutcome, fromSource: DrawOutcome)
    ensures fromMoved == Invoked(Run(f, window, deltaTime))
    ensures fromSource == if f.size <= BytesForStackDrawer then fromMoved else DrawUndefined
  {
    var source := new Drawer(f);
    var moved := new Drawer.Move(source);
    fromMoved := moved.Draw(window, deltaTime);
    fromSource := source.Draw(window, deltaTime);
  }

  /** Constructing and destroying a drawer: a boxed strategy is destroyed once;
      an inline strategy is never destroyed and stays alive. */
  method ConstructThenDestroy(f: Strategy) returns (ghost live: int, ghost destroyed: nat)
    ensures f.size <= BytesForStackDrawer ==> live == 1 && destroyed == 0
    ensures f.size > BytesForStackDrawer ==> live == 0 && destroyed == 1
  {
    var d := new Drawer(f);
    d.Destroy();
    live, destroyed := d.live, d.destroyed;
  }
}
