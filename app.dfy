/** lib.rs: the application shell. The dispatcher's stage registration, the
    initial surface configuration, and the `Application` methods the event
    loop calls: `resize`, `input` and `update`. */
module App {
  import opened Base
  import opened Backend
  import opened Components
  import opened Resizing

  // -------------------------------------------------------------- dispatcher

  datatype System = ModelBuilderSystem | CameraSystem | RotateSystem | ResizingSystem | RenderSystem

  /** A stage registered with `with(system, name, dependencies)`. */
  datatype Registration = Registration(system: System, name: string, dependencies: seq<string>)

  /** `DispatcherBuilder`: the parallel stages and the thread-local stages,
      each in registration order. */
  datatype Dispatcher = Dispatcher(parallel: seq<Registration>, threadLocal: seq<System>)

  function NewDispatcher(): (d: Dispatcher)
    ensures d.parallel == [] && d.threadLocal == []
  {
    Dispatcher([], [])
  }

  function With(d: Dispatcher, system: System, name: string, dependencies: seq<string>): (r: Dispatcher)
    ensures r.parallel == d.parallel + [Registration(system, name, dependencies)] && r.threadLocal == d.threadLocal
  {
    d.(parallel := d.parallel + [Registration(system, name, dependencies)])
  }

  function WithThreadLocal(d: Dispatcher, system: System): (r: Dispatcher)
    ensures r.threadLocal == d.threadLocal + [system] && r.parallel == d.parallel
  {
    d.(threadLocal := d.threadLocal + [system])
  }

  /** Lines 24-30. */
  function AppDispatcher(): Dispatcher {
    var d := With(NewDispatcher(), ModelBuilderSystem, "model_builder", []);
    var d := With(d, CameraSystem, "camera", []);
    var d := With(d, RotateSystem, "rotate", []);
    var d := WithThreadLocal(d, ResizingSystem);
    WithThreadLocal(d, RenderSystem)
  }

  /** What one `update` does to the world, in order. */
  datatype Event =
    | RanParallel(systems: set<System>)
    | RanThreadLocal(system: System)
    | Maintained

  /** The systems of a registration list. */
  function Systems(rs: seq<Registration>): set<System> {
    if |rs| == 0 then {} else Systems(rs[..|rs| - 1]) + {rs[|rs| - 1].system}
  }

  /** The parallel group runs exactly the registered systems. */
  lemma {:induction false} SystemsSpec(rs: seq<Registration>)
    ensures forall i :: 0 <= i < |rs| ==> rs[i].system in Systems(rs)
    ensures forall x :: x in Systems(rs) ==> exists i :: 0 <= i < |rs| && rs[i].system == x
  {
    if |rs| > 0 {
      var prefix := rs[..|rs| - 1];
      SystemsSpec(prefix);
      assert forall i :: 0 <= i < |prefix| ==> prefix[i] == rs[i];
    }
  }

  function ThreadLocalEvents(ss: seq<System>): seq<Event> {
    if |ss| == 0 then [] else ThreadLocalEvents(ss[..|ss| - 1]) + [RanThreadLocal(ss[|ss| - 1])]
  }

  /** The thread-local stages run one at a time, in registration order. */
  lemma {:induction false} ThreadLocalEventsSpec(ss: seq<System>)
    ensures |ThreadLocalEvents(ss)| == |ss|
    ensures forall i :: 0 <= i < |ss| ==> ThreadLocalEvents(ss)[i] == RanThreadLocal(ss[i])
  {
    if |ss| > 0 {
      var prefix := ss[..|ss| - 1];
      ThreadLocalEventsSpec(prefix);
      assert forall i :: 0 <= i < |prefix| ==> prefix[i] == ss[i];
    }
  }

  /** `dispatch` runs the parallel stages (in an order of its choosing), then
      the thread-local stages one after the other in registration order;
      `maintain` follows. */
  function UpdateEvents(d: Dispatcher): seq<Event> {
    [RanParallel(Systems(d.parallel))] + ThreadLocalEvents(d.threadLocal) + [Maintained]
  }

  /** The stages `run` registers, in order. */
  lemma AppDispatcherStages()
    ensures AppDispatcher().parallel == [
      Registration(ModelBuilderSystem, "model_builder", []),
      Registration(CameraSystem, "camera", []),
      Registration(RotateSystem, "rotate", [])]
    ensures AppDispatcher().threadLocal == [ResizingSystem, RenderSystem]
  {
  }

  /** The application's stages: model builder, camera and rotation may run in
      parallel; then resizing, then rendering, each on the main thread; then
      the world is maintained. */
  lemma AppUpdateOrder()
    ensures UpdateEvents(AppDispatcher()) == [
      RanParallel({ModelBuilderSystem, CameraSystem, RotateSystem}),
      RanThreadLocal(ResizingSystem),
      RanThreadLocal(RenderSystem),
      Maintained]
  {
    AppDispatcherStages();
    var p := AppDispatcher().parallel;
    SystemsOfThree(p[0], p[1], p[2]);
    EventsOfTwo(ResizingSystem, RenderSystem);
  }

  lemma SystemsOfThree(a: Registration, b: Registration, c: Registration)
    ensures Systems([a, b, c]) == {a.system, b.system, c.system}
  {
    assert [a, b, c][..2] == [a, b];
    assert [a, b][..1] == [a];
    assert [a][..0] == [];
    assert Systems([a]) == {a.system};
    assert Systems([a, b]) == {a.system, b.system};
  }

  lemma EventsOfTwo(x: System, y: System)
    ensures ThreadLocalEvents([x, y]) == [RanThreadLocal(x), RanThreadLocal(y)]
  {
    assert [x, y][..1] == [x];
    assert [x][..0] == [];
    assert ThreadLocalEvents([x]) == [RanThreadLocal(x)];
  }

  /** Maintaining the world is the last thing an update does, and every
      thread-local stage runs after the parallel group. */
  lemma UpdateEndsWithMaintain(d: Dispatcher)
    ensures var es := UpdateEvents(d);
      |es| == |d.threadLocal| + 2 && es[|es| - 1] == Maintained && es[0] == RanParallel(Systems(d.parallel)) &&
      forall i :: 0 <= i < |d.threadLocal| ==> es[i + 1] == RanThreadLocal(d.threadLocal[i])
  {
    ThreadLocalEventsSpec(d.threadLocal);
  }

  // ------------------------------------------------- initial configuration

  /** What `surface.get_capabilities` reports. */
  datatype SurfaceCapabilities = SurfaceCapabilities(formats: seq<TextureFormat>, presentModes: seq<PresentMode>, alphaModes: seq<AlphaMode>)

  /** `formats.iter().copied().find(|f| f.describe().srgb)`. */
  function FirstSrgb(formats: seq<TextureFormat>): (r: Option<TextureFormat>)
    ensures r.Some? <==> exists i :: 0 <= i < |formats| && formats[i].srgb
    ensures r.Some? ==> exists i :: (0 <= i < |formats| && formats[i] == r.value && r.value.srgb &&
      forall j :: 0 <= j < i ==> !formats[j].srgb)
  {
    if |formats| == 0 then None
    else if formats[0].srgb then Some(formats[0])
    else
      var r := FirstSrgb(formats[1..]);
      assert forall i :: 0 < i < |formats| ==> formats[1..][i - 1] == formats[i];
      r
  }

  /** Lines 183-198: the first sRGB format, the first present mode, the first
      alpha mode, at 1 x 1. Each `unwrap` and index is fatal, and they fail in
      that order: no sRGB format, then no present mode, then no alpha mode. */
  function InitialConfig(caps: SurfaceCapabilities): (r: Result<SurfaceConfiguration>)
    ensures r.Ok? <==> (exists i :: 0 <= i < |caps.formats| && caps.formats[i].srgb) && |caps.presentModes| > 0 && |caps.alphaModes| > 0
    ensures r.Ok? ==>
      r.value.width == 1 && r.value.height == 1 && r.value.format.srgb &&
      r.value.format in caps.formats && r.value.presentMode == caps.presentModes[0] &&
      r.value.alphaMode == caps.alphaModes[0] && r.value.usage == RenderAttachment && r.value.viewFormats == []
    ensures r.Ok? ==> Some(r.value.format) == FirstSrgb(caps.formats)
    ensures (forall i :: 0 <= i < |caps.formats| ==> !caps.formats[i].srgb) ==> r == Err(NoSrgbFormat)
    ensures (exists i :: 0 <= i < |caps.formats| && caps.formats[i].srgb) && |caps.presentModes| == 0 ==>
      r == Err(NoPresentMode)
    ensures ((exists i :: 0 <= i < |caps.formats| && caps.formats[i].srgb) && |caps.presentModes| > 0 &&
      |caps.alphaModes| == 0) ==> r == Err(NoAlphaMode)
  {
    match FirstSrgb(caps.formats)
    case None => Err(NoSrgbFormat)
    case Some(format) =>
      if |caps.presentModes| == 0 then Err(NoPresentMode)
      else if |caps.alphaModes| == 0 then Err(NoAlphaMode)
      else Ok(SurfaceConfiguration(RenderAttachment, format, 1, 1, caps.presentModes[0], caps.alphaModes[0], []))
  }

  /** Because the surface starts at 1 x 1, the first run of the resize stage
      reconfigures it, setting every camera's aspect, unless the window is
      itself 1 x 1. */
  lemma FirstResizeReconfigures(caps: SurfaceCapabilities, size: PhysicalSize, cams: seq<Option<Camera>>)
    requires InitialConfig(caps).Ok?
    ensures var config := InitialConfig(caps).value;
      (|Stage(size, config, cams).calls| == 1 <==> !(size.width == 1 && size.height == 1)) &&
      (Stage(size, config, cams).calls == [] <==> size.width == 1 && size.height == 1)
  {
  }

  // ------------------------------------------------------- the application

  /** `resize`: a size with zero width or zero height is ignored. */
  function AcceptResize(current: PhysicalSize, requested: PhysicalSize): (r: PhysicalSize)
    ensures r == requested || r == current
  {
    if requested.width > 0 && requested.height > 0 then requested else current
  }

  /** A positive size is stored exactly; any other leaves the stored size
      as it was; so once the stored size has positive area it keeps it. */
  lemma AcceptResizeSpec(current: PhysicalSize, requested: PhysicalSize)
    ensures requested.width > 0 && requested.height > 0 ==> AcceptResize(current, requested) == requested
    ensures requested.width == 0 || requested.height == 0 ==> AcceptResize(current, requested) == current
    ensures current.width > 0 && current.height > 0 ==>
      AcceptResize(current, requested).width > 0 && AcceptResize(current, requested).height > 0
  {
  }

  /** A sequence of window resizes leaves the last one with positive area, or
      the starting size if there is none. */
  function ResizeAll(current: PhysicalSize, requests: seq<PhysicalSize>): PhysicalSize {
    if |requests| == 0 then current
    else AcceptResize(ResizeAll(current, requests[..|requests| - 1]), requests[|requests| - 1])
  }

  lemma {:induction false} ResizeAllLastPositive(current: PhysicalSize, requests: seq<PhysicalSize>)
    ensures (exists i :: 0 <= i < |requests| && requests[i].width > 0 && requests[i].height > 0) ==>
      exists i :: (0 <= i < |requests| && ResizeAll(current, requests) == requests[i] &&
        requests[i].width > 0 && requests[i].height > 0 &&
        forall j :: i < j < |requests| ==> requests[j].width == 0 || requests[j].height == 0)
    ensures (forall i :: 0 <= i < |requests| ==> requests[i].width == 0 || requests[i].height == 0) ==>
      ResizeAll(current, requests) == current
  {
    if |requests| > 0 {
      var n := |requests|;
      var prefix := requests[..n - 1];
      ResizeAllLastPositive(current, prefix);
      assert forall i :: 0 <= i < n - 1 ==> prefix[i] == requests[i];
      if requests[n - 1].width > 0 && requests[n - 1].height > 0 {
        assert ResizeAll(current, requests) == requests[n - 1];
      } else if exists i :: 0 <= i < |requests| && requests[i].width > 0 && requests[i].height > 0 {
        var k :| 0 <= k < |requests| && requests[k].width > 0 && requests[k].height > 0;
        assert prefix[k] == requests[k];
        var i :| 0 <= i < |prefix| && ResizeAll(current, prefix) == prefix[i] &&
          prefix[i].width > 0 && prefix[i].height > 0 &&
          forall j :: i < j < |prefix| ==> prefix[j].width == 0 || prefix[j].height == 0;
        assert ResizeAll(current, requests) == requests[i];
      }
    }
  }

  /** A window event as `input` sees it. */
  datatype WindowEvent = CloseRequested | EscapePressed | Resized(size: PhysicalSize) | OtherEvent

  class Application {
    var resources: Resources
    const dispatcher: Dispatcher
    /** What the updates so far did to the world. */
    var log: seq<Event>

    constructor (resources: Resources)
      ensures this.resources == resources && dispatcher == AppDispatcher() && log == []
    {
      this.resources := resources;
      dispatcher := AppDispatcher();
      log := [];
    }

    /** `Application::resize`. */
    method Resize(newSize: PhysicalSize)
      modifies resources`size
      ensures resources.size == AcceptResize(old(resources.size), newSize)
    {
      if newSize.width > 0 && newSize.height > 0 {
        resources.size := newSize;
      }
    }

    /** `Application::input`: no event is consumed. */
    method Input(event: WindowEvent) returns (consumed: bool)
      ensures !consumed
    {
      consumed := false;
    }

    /** `Application::update`: dispatch, then maintain. */
    method Update()
      modifies this`log
      ensures log == old(log) + UpdateEvents(dispatcher)
    {
      log := log + [RanParallel(Systems(dispatcher.parallel))];
      var i := 0;
      while i < |dispatcher.threadLocal|
        invariant 0 <= i <= |dispatcher.threadLocal|
        invariant log == old(log) + [RanParallel(Systems(dispatcher.parallel))] + ThreadLocalEvents(dispatcher.threadLocal[..i])
      {
        assert dispatcher.threadLocal[..i + 1] == dispatcher.threadLocal[..i] + [dispatcher.threadLocal[i]];
        log := log + [RanThreadLocal(dispatcher.threadLocal[i])];
        i := i + 1;
      }
      assert dispatcher.threadLocal[..i] == dispatcher.threadLocal;
      log := log + [Maintained];
    }
  }
}
