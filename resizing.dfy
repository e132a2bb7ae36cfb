/** systems/resizing.rs: when the window size differs from the surface
    configuration, copy it into the configuration, set every camera's aspect
    to width / height and reconfigure the surface once. */
module Resizing {
  import opened Base
  import opened Backend
  import opened Components
  import opened Ecs

  /** The world resources shared by `Application::resize` and this stage:
      the window size and the surface configuration. */
  class Resources {
    var size: PhysicalSize
    var config: SurfaceConfiguration

    constructor (size: PhysicalSize, config: SurfaceConfiguration)
      ensures this.size == size && this.config == config
    {
      this.size := size;
      this.config := config;
    }
  }

  /** The stage has work to do. */
  predicate SizeChanged(size: PhysicalSize, config: SurfaceConfiguration) {
    !(size.width == config.width && size.height == config.height)
  }

  /** Lines 22-23. */
  function Resized(config: SurfaceConfiguration, size: PhysicalSize): (c: SurfaceConfiguration)
    ensures c.width == size.width && c.height == size.height
    ensures c.(width := config.width, height := config.height) == config
    ensures !SizeChanged(size, c)
  {
    config.(width := size.width, height := size.height)
  }

  /** `size.width as f32 / size.height as f32`, kept as the pair. */
  function SizeAspect(size: PhysicalSize): Aspect {
    Ratio(size.width, size.height)
  }

  /** The camera storage once the loop of lines 25-27 has visited entities
      0 .. k-1. */
  function CamerasUpTo(cams: Storage<Camera>, size: PhysicalSize, k: nat): (r: Storage<Camera>)
    requires k <= |cams|
    ensures |r| == |cams|
  {
    if k == 0 then cams
    else
      var s := CamerasUpTo(cams, size, k - 1);
      if s[k - 1].Some? then s[k - 1 := Some(s[k - 1].value.(aspect := SizeAspect(size)))] else s
  }

  lemma {:induction false} CamerasUpToAt(cams: Storage<Camera>, size: PhysicalSize, k: nat, e: nat)
    requires k <= |cams| && e < |cams|
    ensures CamerasUpTo(cams, size, k)[e] ==
      if e < k && cams[e].Some? then Some(cams[e].value.(aspect := SizeAspect(size))) else cams[e]
  {
    if k > 0 {
      CamerasUpToAt(cams, size, k - 1, e);
      CamerasUpToAt(cams, size, k - 1, k - 1);
    }
  }

  /** What one run of the stage does: the new configuration, the new camera
      storage and the surface calls it makes. */
  datatype Effect = Effect(config: SurfaceConfiguration, cameras: Storage<Camera>, calls: seq<Call>)

  function Stage(size: PhysicalSize, config: SurfaceConfiguration, cams: Storage<Camera>): (r: Effect)
    ensures |r.cameras| == |cams|
  {
    if !SizeChanged(size, config) then Effect(config, cams, [])
    else
      var c := Resized(config, size);
      Effect(c, CamerasUpTo(cams, size, |cams|), [Configure(c)])
  }

  /** An unchanged size leaves everything as it was and configures nothing. */
  lemma StageUnchanged(size: PhysicalSize, config: SurfaceConfiguration, cams: Storage<Camera>)
    requires size.width == config.width && size.height == config.height
    ensures Stage(size, config, cams) == Effect(config, cams, [])
  {
  }

  /** A changed size: the configuration takes the new width and height and
      keeps every other field; every camera, and only the cameras, gets the
      aspect width / height with its other fields kept; the surface is
      configured exactly once, with the updated configuration. */
  lemma StageChanged(size: PhysicalSize, config: SurfaceConfiguration, cams: Storage<Camera>)
    requires SizeChanged(size, config)
    ensures var r := Stage(size, config, cams);
      r.config.width == size.width && r.config.height == size.height &&
      r.config.(width := config.width, height := config.height) == config &&
      r.calls == [Configure(r.config)]
    ensures forall e :: 0 <= e < |cams| ==>
      (Stage(size, config, cams).cameras[e].Some? <==> cams[e].Some?)
    ensures forall e :: 0 <= e < |cams| && cams[e].Some? ==>
      Stage(size, config, cams).cameras[e] == Some(cams[e].value.(aspect := Ratio(size.width, size.height)))
  {
    forall e | 0 <= e < |cams|
      ensures Stage(size, config, cams).cameras[e] ==
        if cams[e].Some? then Some(cams[e].value.(aspect := Ratio(size.width, size.height))) else cams[e]
    {
      CamerasUpToAt(cams, size, |cams|, e);
    }
  }

  /** Running the stage twice with the same size: the second run does
      nothing. */
  lemma StageTwice(size: PhysicalSize, config: SurfaceConfiguration, cams: Storage<Camera>)
    ensures var once := Stage(size, config, cams);
      Stage(size, once.config, once.cameras) == Effect(once.config, once.cameras, [])
  {
  }

  /** `ResizingSystem::run`. */
  method Run(res: Resources, cameras: array<Option<Camera>>, gpu: Gpu)
    modifies res`config, cameras, gpu`calls
    ensures var r := Stage(res.size, old(res.config), old(cameras[..]));
      res.config == r.config && cameras[..] == r.cameras && gpu.calls == old(gpu.calls) + r.calls
  {
    var size := res.size;
    if size.width == res.config.width && size.height == res.config.height {
      return;
    }
    res.config := res.config.(width := size.width);
    res.config := res.config.(height := size.height);
    ghost var cams := cameras[..];
    for e := 0 to cameras.Length
      invariant cameras[..] == CamerasUpTo(cams, size, e)
      modifies cameras
    {
      if cameras[e].Some? {
        cameras[e] := Some(cameras[e].value.(aspect := SizeAspect(size)));
      }
    }
    gpu.Record(Configure(res.config));
  }
}
