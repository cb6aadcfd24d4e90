/** Model of the application logic in src/main/main.cpp: the earlier
    type-erased `DrawerClass`, the window-size globals and their resize
    callback, one iteration of the render loop, and the debug-message
    callback's filter. Window creation, GLAD loading, buffer swapping and
    event polling are outside the model. */
module MainApp {
  import opened Wrappers
  import opened GlTypes
  import opened Drawer
  import opened DebugEnums

  /** `DrawerClass`: like `Drawer`, a strategy held inline in 128 bytes or
      boxed on the heap; it declares no copy, move or destructor, so those
      are the implicit ones. Its implicit copy is deleted, because the
      `unique_ptr` alternative cannot be copied. */
  class DrawerClass {
    var holder: Holder
    /** Strategy objects this drawer constructed or took over and has not destroyed. */
    ghost var live: int
    /** Strategy destructors this drawer has run. */
    ghost var destroyed: nat

    ghost predicate Valid()
      reads this
    {
      0 <= live && holder.HeapOwned() <= live
    }

    /** The constructor: inline exactly when `sizeof(ConcreteDrawer<Func>)`
        is at most 128 bytes, otherwise on the heap. */
    constructor (f: Strategy)
      ensures Valid() && live == 1 && destroyed == 0
      ensures holder.Held() == Some(f)
      ensures holder.Mode() == InlineMode <==> f.size <= BytesForStackDrawer
    {
      if f.size <= BytesForStackDrawer {
        holder := Inline(Some(f));
      } else {
        holder := Heap(Some(f));
      }
      live, destroyed := 1, 0;
    }

    /** The implicit move constructor: the variant is moved, so a heap box
        changes owner and inline bytes are duplicated, not copy-constructed. */
    constructor Move(other: DrawerClass)
      requires other.Valid()
      modifies other
      ensures Valid() && other.Valid() && destroyed == 0
      ensures holder == old(other.holder)
      ensures live == old(other.holder).HeapOwned()
      ensures other.holder == if old(other.holder).Heap? then Heap(None) else old(other.holder)
      ensures other.live == old(other.live) - old(other.holder).HeapOwned()
      ensures other.destroyed == old(other.destroyed)
    {
      holder := other.holder;
      live := other.holder.HeapOwned();
      destroyed := 0;
      new;
      if other.holder.Heap? {
        other.live := other.live - other.holder.HeapOwned();
        other.holder := Heap(None);
      }
    }

    /** The implicit destructor: a boxed strategy is deleted; an inline one is
        never destroyed. */
    method Destroy()
      requires Valid()
      modifies this
      ensures holder == old(holder)
      ensures destroyed == old(destroyed) + old(holder).HeapOwned()
      ensures live == old(live) - old(holder).HeapOwned()
      ensures old(holder).Inline? ==> live == old(live) && destroyed == old(destroyed)
    {
      var released := holder.HeapOwned();
      destroyed := destroyed + released;
      live := live - released;
    }

    /** `Draw(window, delta_time)`: the held strategy receives both arguments
        unchanged. */
    method Draw(window: Window, deltaTime: int) returns (outcome: DrawOutcome)
      ensures outcome == Dispatch(holder, window, deltaTime)
    {
      match holder
      case Heap(box) =>
        outcome := if box.Some? then Invoked(Run(box.value, window, deltaTime)) else DrawUndefined;
      case Inline(slot) =>
        outcome := if slot.Some? then Invoked(Run(slot.value, window, deltaTime)) else DrawUndefined;
    }
  }

  // ------------------------------------------------------------ the window

  const StartingWidth: int := 800
  const StartingHeight: int := 600

  /** The rectangle last passed to `glViewport`. */
  datatype Viewport = Viewport(x: int, y: int, width: int, height: int)

  /** The globals `WindowWidth` and `WindowHeight`, with the GL viewport. */
  class WindowGlobals {
    var width: int
    var height: int
    var viewport: Option<Viewport>

    /** Static initialisation: 800 x 600, no viewport set yet. */
    constructor ()
      ensures width == 800 && height == 600 && viewport == None
    {
      width, height, viewport := StartingWidth, StartingHeight, None;
    }

    /** `FramebufferSizeCallback(window, width, height)`: records the new size
        and sets the viewport to the whole framebuffer; nothing else changes. */
    method FramebufferSizeCallback(newWidth: int, newHeight: int)
      modifies this
      ensures width == newWidth && height == newHeight
      ensures viewport == Some(Viewport(0, 0, newWidth, newHeight))
    {
      width := newWidth;
      height := newHeight;
      viewport := Some(Viewport(0, 0, width, height));
    }
  }

  // -------------------------------------------------------- the render loop

  /** The loop variable `PreviousTime` of the render loop. */
  class FrameLoop {
    var previousTime: int

    /** `auto PreviousTime = system_clock::now();` with the clock reading as a
        parameter. */
    constructor (now: int)
      ensures previousTime == now
    {
      previousTime := now;
    }

    /** One iteration: reads the clock (`startTime`), stores it as the
        previous time, computes the elapsed time, then draws `clear` and
        `triangle` in that order. Because the assignment precedes the
        subtraction the time step is always zero. */
    method RenderFrame(clear: DrawerClass, triangle: DrawerClass, window: Window, startTime: int)
      returns (draws: seq<DrawOutcome>, deltaTime: int)
      modifies this
      ensures previousTime == startTime
      ensures deltaTime == 0
      ensures draws == [Dispatch(clear.holder, window, 0), Dispatch(triangle.holder, window, 0)]
    {
      previousTime := startTime;
      deltaTime := startTime - previousTime;
      var first := clear.Draw(window, deltaTime);
      var second := triangle.Draw(window, deltaTime);
      draws := [first, second];
    }
  }

  /** Whatever the clock says and however long the previous frame took, each
      frame runs the clear strategy, then the triangle strategy, both with a
      zero time step. */
  method DemoFrames(clearStrategy: Strategy, triangleStrategy: Strategy, window: Window, t0: int, t1: int, t2: int)
    returns (frame1: seq<DrawOutcome>, frame2: seq<DrawOutcome>)
    ensures frame1 == [Invoked(Run(clearStrategy, window, 0)), Invoked(Run(triangleStrategy, window, 0))]
    ensures frame2 == frame1
  {
    var clear := new DrawerClass(clearStrategy);
    var triangle := new DrawerClass(triangleStrategy);
    var loop := new FrameLoop(t0);
    var dt;
    frame1, dt := loop.RenderFrame(clear, triangle, window, t1);
    frame2, dt := loop.RenderFrame(clear, triangle, window, t2);
  }

  /** Moving a `DrawerClass` with an inline strategy leaves two drawers that
      run the same strategy, and destroying both destroys nothing. */
  method InlineMoveDuplicates(f: Strategy, window: Window, deltaTime: int)
    returns (fromSource: DrawOutcome, fromMoved: DrawOutcome, ghost destroyed: nat)
    requires f.size <= BytesForStackDrawer
    ensures fromSource == fromMoved == Invoked(Run(f, window, deltaTime))
    ensures destroyed == 0
  {
    var source := new DrawerClass(f);
    var moved := new DrawerClass.Move(source);
    fromSource := source.Draw(window, deltaTime);
    fromMoved := moved.Draw(window, deltaTime);
    source.Destroy();
    moved.Destroy();
    destroyed := source.destroyed + moved.destroyed;
  }

  // ------------------------------------------------------- debug callback

  /** The message ids the callback ignores. */
  const IgnoredIds: set<U32> := {131169, 131185, 131218, 131204}

  /** One line handed to spdlog. */
  datatype LogEntry = LogEntry(level: LogLevel, text: string)

  /** `DebugCallback`: drops the four ignored ids, and otherwise logs the
      message at the level of its severity, naming its source and type. */
  function DebugCallback(source: U32, kind: U32, id: U32, severity: U32, message: string): (entry: Option<LogEntry>)
    ensures entry.None? <==> id in IgnoredIds
    ensures entry.Some? ==> entry.value.level == GLEnumErrorSeverityToSpdLog(severity)
    ensures entry.Some? ==>
      entry.value.text == "OpenGL Debug Message: Source: " + GetSourceString(source)
                          + "; Type: " + GetTypeString(kind) + "; Message: " + message
  {
    if id == 131169 || id == 131185 || id == 131218 || id == 131204 then None
    else Some(LogEntry(GLEnumErrorSeverityToSpdLog(severity),
      "OpenGL Debug Message: Source: " + GetSourceString(source)
      + "; Type: " + GetTypeString(kind) + "; Message: " + message))
  }

  /** A high-severity error from the API is logged as critical, while the
      same message under an ignored id is dropped. */
  lemma DebugCallbackExamples(message: string)
    ensures DebugCallback(GL_DEBUG_SOURCE_API, GL_DEBUG_TYPE_ERROR, 1, GL_DEBUG_SEVERITY_HIGH, message).value.level == Critical
    ensures DebugCallback(GL_DEBUG_SOURCE_API, GL_DEBUG_TYPE_ERROR, 131185, GL_DEBUG_SEVERITY_HIGH, message).None?
    ensures DebugCallback(0, 0, 1, GL_DEBUG_SEVERITY_NOTIFICATION, message).value.level == Info
  {
  }
}
