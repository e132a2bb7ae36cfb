/** systems/rendering.rs: acquire the frame, record one render pass that
    clears it and draws every joined (renderer, transform) entity in entity
    order, submit the commands once and present. Every `unwrap` and the
    shader lookup are fatal; a panic submits and presents nothing. */
module Rendering {
  import opened Base
  import opened Backend
  import opened Components
  import opened Ecs
  import opened Shaders

  /** The clear colour 0.1, 0.2, 0.3, 1.0 as `f64` bit patterns. */
  const CLEAR: Color := Color(0x3FB9_9999_9999_999A, 0x3FC9_9999_9999_999A, 0x3FD3_3333_3333_3333, 0x3FF0_0000_0000_0000)

  /** The outcome of `surface.get_current_texture()`. */
  datatype Acquire = Acquired(texture: nat) | AcquireFailed(error: SurfaceError)

  /** The first `unwrap` that fails for entity `e`, in the order of lines
      58-66, or `None` when the entity can be drawn. */
  function Check(shaders: map<string, ShaderInfo>, r: DrawRenderer, t: Transform, e: nat): (p: Option<Panic>)
  {
    if "default" !in shaders then Some(ShaderNotFound("default"))
    else if r.diffuse.None? then Some(BindingMissing(e, Diffuse))
    else if t.bind.None? then Some(BindingMissing(e, TransformBind))
    else if r.vertexBuffer.None? then Some(BindingMissing(e, VertexBuffer))
    else if r.indexBuffer.None? then Some(BindingMissing(e, IndexBuffer))
    else None
  }

  /** Everything the draw of one entity needs is there. */
  predicate Ready(shaders: map<string, ShaderInfo>, r: DrawRenderer, t: Transform) {
    "default" in shaders && r.diffuse.Some? && t.bind.Some? && r.vertexBuffer.Some? && r.indexBuffer.Some?
  }

  /** Entity `e` is joined and ready to draw. */
  predicate Drawable(rs: Storage<DrawRenderer>, ts: Storage<Transform>, shaders: map<string, ShaderInfo>, e: int) {
    Joined(rs, ts, e) && Ready(shaders, rs[e].value, ts[e].value)
  }

  lemma CheckIsReady(shaders: map<string, ShaderInfo>, r: DrawRenderer, t: Transform, e: nat)
    ensures Check(shaders, r, t, e).None? <==> Ready(shaders, r, t)
  {
  }

  /** The commands of lines 59-70 for one entity. */
  function DrawBlock(shaders: map<string, ShaderInfo>, r: DrawRenderer, t: Transform): (b: seq<RenderCommand>)
    requires Ready(shaders, r, t)
    ensures |b| == 6
  {
    [ SetPipeline(shaders["default"].pipeline.id),
      SetBindGroup(0, r.diffuse.value),
      SetBindGroup(1, t.bind.value),
      SetVertexBuffer(0, r.vertexBuffer.value),
      SetIndexBuffer(r.indexBuffer.value, Uint16),
      DrawIndexed(0, r.indicesCount, 0, 0, 1) ]
  }

  /** The commands recorded so far and the panic that stopped recording. */
  datatype Trace = Trace(commands: seq<RenderCommand>, failure: Option<Panic>)

  /** The trace once the loop of lines 57-71 has visited entities 0 .. k-1. */
  function TraceUpTo(rs: Storage<DrawRenderer>, ts: Storage<Transform>, shaders: map<string, ShaderInfo>, k: nat): Trace {
    if k == 0 then Trace([], None)
    else
      var p := TraceUpTo(rs, ts, shaders, k - 1);
      if p.failure.Some? || !Joined(rs, ts, k - 1) then p
      else match Check(shaders, rs[k - 1].value, ts[k - 1].value, k - 1)
        case Some(panic) => Trace(p.commands, Some(panic))
        case None => Trace(p.commands + DrawBlock(shaders, rs[k - 1].value, ts[k - 1].value), None)
  }

  /** The whole frame: the calls it makes, or the panic. */
  function Frame(rs: Storage<DrawRenderer>, ts: Storage<Transform>, shaders: map<string, ShaderInfo>, acquire: Acquire, view: nat): (r: Result<seq<Call>>)
  {
    if acquire.AcquireFailed? then Err(FrameUnavailable(acquire.error))
    else
      var t := TraceUpTo(rs, ts, shaders, JoinLen(rs, ts));
      if t.failure.Some? then Err(t.failure.value)
      else Ok([Submit([BeginRenderPass(view, CLEAR)] + t.commands + [EndRenderPass]), Present(acquire.texture)])
  }

  // ----------------------------------------------------------- the blocks

  /** The draw blocks of the entities `js`, in that order. */
  function Blocks(rs: Storage<DrawRenderer>, ts: Storage<Transform>, shaders: map<string, ShaderInfo>, js: seq<nat>): (b: seq<RenderCommand>)
    requires forall j :: 0 <= j < |js| ==> Drawable(rs, ts, shaders, js[j])
    ensures |b| == 6 * |js|
  {
    if |js| == 0 then []
    else
      assert Drawable(rs, ts, shaders, js[|js| - 1]);
      assert forall j :: 0 <= j < |js| - 1 ==> js[..|js| - 1][j] == js[j];
      Blocks(rs, ts, shaders, js[..|js| - 1]) + DrawBlock(shaders, rs[js[|js| - 1]].value, ts[js[|js| - 1]].value)
  }

  /** Block `j` of the concatenation is the draw block of entity `js[j]`. */
  lemma {:induction false} BlocksAt(rs: Storage<DrawRenderer>, ts: Storage<Transform>, shaders: map<string, ShaderInfo>, js: seq<nat>, j: nat, c: nat)
    requires forall i :: 0 <= i < |js| ==> Drawable(rs, ts, shaders, js[i])
    requires j < |js| && c < 6
    ensures Blocks(rs, ts, shaders, js)[6 * j + c] == DrawBlock(shaders, rs[js[j]].value, ts[js[j]].value)[c]
  {
    var n := |js|;
    if j < n - 1 {
      BlocksAt(rs, ts, shaders, js[..n - 1], j, c);
    }
  }

  /** No entity below `i` blocks the draw. */
  predicate ReadyBelow(rs: Storage<DrawRenderer>, ts: Storage<Transform>, shaders: map<string, ShaderInfo>, i: nat) {
    forall e :: 0 <= e < i && Joined(rs, ts, e) ==> Ready(shaders, rs[e].value, ts[e].value)
  }

  /** While every joined entity is ready, every entity the join yields can
      be drawn. */
  lemma JoinedDrawable(rs: Storage<DrawRenderer>, ts: Storage<Transform>, shaders: map<string, ShaderInfo>, k: nat)
    requires ReadyBelow(rs, ts, shaders, k)
    ensures forall j :: 0 <= j < |JoinedUpTo(rs, ts, k)| ==> Drawable(rs, ts, shaders, JoinedUpTo(rs, ts, k)[j])
  {
    JoinedUpToIsInnerJoin(rs, ts, k);
    forall j | 0 <= j < |JoinedUpTo(rs, ts, k)|
      ensures Drawable(rs, ts, shaders, JoinedUpTo(rs, ts, k)[j])
    {
      assert JoinedUpTo(rs, ts, k)[j] in JoinedUpTo(rs, ts, k);
    }
  }

  /** While every joined entity is ready, the trace is the blocks of the
      joined entities in join order. */
  lemma {:induction false} TraceUpToBlocks(rs: Storage<DrawRenderer>, ts: Storage<Transform>, shaders: map<string, ShaderInfo>, k: nat)
    requires ReadyBelow(rs, ts, shaders, k)
    ensures forall j :: 0 <= j < |JoinedUpTo(rs, ts, k)| ==> Drawable(rs, ts, shaders, JoinedUpTo(rs, ts, k)[j])
    ensures TraceUpTo(rs, ts, shaders, k) == Trace(Blocks(rs, ts, shaders, JoinedUpTo(rs, ts, k)), None)
  {
    JoinedDrawable(rs, ts, shaders, k);
    if k > 0 {
      TraceUpToBlocks(rs, ts, shaders, k - 1);
      var prev := JoinedUpTo(rs, ts, k - 1);
      var js := JoinedUpTo(rs, ts, k);
      if Joined(rs, ts, k - 1) {
        assert js == prev + [k - 1];
        assert js[..|js| - 1] == prev;
        assert Blocks(rs, ts, shaders, js) == Blocks(rs, ts, shaders, prev) + DrawBlock(shaders, rs[k - 1].value, ts[k - 1].value);
      } else {
        assert js == prev;
      }
    }
  }

  /** The first unready entity stops the trace with the panic of its first
      failing `unwrap`. */
  lemma {:induction false} TraceUpToStops(rs: Storage<DrawRenderer>, ts: Storage<Transform>, shaders: map<string, ShaderInfo>, k: nat, f: nat)
    requires f < k
    requires Joined(rs, ts, f) && !Ready(shaders, rs[f].value, ts[f].value) && ReadyBelow(rs, ts, shaders, f)
    ensures TraceUpTo(rs, ts, shaders, k).failure == Check(shaders, rs[f].value, ts[f].value, f)
    ensures TraceUpTo(rs, ts, shaders, k).failure.Some?
  {
    if k == f + 1 {
      TraceUpToBlocks(rs, ts, shaders, f);
    } else {
      TraceUpToStops(rs, ts, shaders, k - 1, f);
    }
  }

  lemma {:induction false} UnreadyFails(rs: Storage<DrawRenderer>, ts: Storage<Transform>, shaders: map<string, ShaderInfo>, k: nat, e: nat)
    requires e < k && Joined(rs, ts, e) && !Ready(shaders, rs[e].value, ts[e].value)
    ensures TraceUpTo(rs, ts, shaders, k).failure.Some?
    decreases e
  {
    if ReadyBelow(rs, ts, shaders, e) {
      TraceUpToStops(rs, ts, shaders, k, e);
    } else {
      var i :| 0 <= i < e && Joined(rs, ts, i) && !Ready(shaders, rs[i].value, ts[i].value);
      UnreadyFails(rs, ts, shaders, k, i);
    }
  }

  lemma {:induction false} TraceFailureSticks(rs: Storage<DrawRenderer>, ts: Storage<Transform>, shaders: map<string, ShaderInfo>, j: nat, k: nat)
    requires j <= k && TraceUpTo(rs, ts, shaders, j).failure.Some?
    ensures TraceUpTo(rs, ts, shaders, k) == TraceUpTo(rs, ts, shaders, j)
  {
    if k > j {
      TraceFailureSticks(rs, ts, shaders, j, k - 1);
    }
  }

  // ------------------------------------------------------- frame properties

  /** The frame fails exactly when the frame cannot be acquired or some joined
      entity is not ready to draw (which includes a missing "default" shader
      once there is anything to draw). */
  lemma FrameFailsIff(rs: Storage<DrawRenderer>, ts: Storage<Transform>, shaders: map<string, ShaderInfo>, acquire: Acquire, view: nat)
    ensures Frame(rs, ts, shaders, acquire, view).Err? <==>
      acquire.AcquireFailed? || exists e :: Joined(rs, ts, e) && !Ready(shaders, rs[e].value, ts[e].value)
    ensures acquire.AcquireFailed? ==> Frame(rs, ts, shaders, acquire, view) == Err(FrameUnavailable(acquire.error))
  {
    var k := JoinLen(rs, ts);
    if e :| Joined(rs, ts, e) && !Ready(shaders, rs[e].value, ts[e].value) {
      UnreadyFails(rs, ts, shaders, k, e);
    } else {
      TraceUpToBlocks(rs, ts, shaders, k);
    }
  }

  /** A panic names the first entity, in entity order, that is not ready, and
      its first missing resource in the order the code unwraps them. */
  lemma FrameFirstFailure(rs: Storage<DrawRenderer>, ts: Storage<Transform>, shaders: map<string, ShaderInfo>, acquire: Acquire, view: nat, f: nat)
    requires acquire.Acquired?
    requires Joined(rs, ts, f) && !Ready(shaders, rs[f].value, ts[f].value) && ReadyBelow(rs, ts, shaders, f)
    ensures Frame(rs, ts, shaders, acquire, view) == Err(Check(shaders, rs[f].value, ts[f].value, f).value)
    ensures "default" !in shaders ==> Frame(rs, ts, shaders, acquire, view) == Err(ShaderNotFound("default"))
  {
    TraceUpToStops(rs, ts, shaders, JoinLen(rs, ts), f);
  }

  /** A successful frame makes exactly two calls: one submit of a single
      render pass, then the present of the acquired texture. The pass clears
      the frame, holds six commands per joined entity in join order, and
      the block of the `j`-th joined entity is the pipeline of "default",
      its diffuse group at 0, its transform group at 1, its vertex buffer at
      slot 0, its index buffer as 16-bit indices and one draw of
      `0 .. indices_count` over instance 0. */
  lemma FrameSuccess(rs: Storage<DrawRenderer>, ts: Storage<Transform>, shaders: map<string, ShaderInfo>, acquire: Acquire, view: nat)
    requires Frame(rs, ts, shaders, acquire, view).Ok?
    ensures var calls := Frame(rs, ts, shaders, acquire, view).value;
      var js := Join(rs, ts);
      |calls| == 2 && calls[0].Submit? && calls[1] == Present(acquire.texture) &&
      var cmds := calls[0].commands;
      |cmds| == 6 * |js| + 2 &&
      cmds[0] == BeginRenderPass(view, CLEAR) && cmds[|cmds| - 1] == EndRenderPass &&
      forall j :: 0 <= j < |js| ==>
        Drawable(rs, ts, shaders, js[j]) &&
        var r := rs[js[j]].value;
        var t := ts[js[j]].value;
        cmds[6 * j + 1] == SetPipeline(shaders["default"].pipeline.id) &&
        cmds[6 * j + 2] == SetBindGroup(0, r.diffuse.value) &&
        cmds[6 * j + 3] == SetBindGroup(1, t.bind.value) &&
        cmds[6 * j + 4] == SetVertexBuffer(0, r.vertexBuffer.value) &&
        cmds[6 * j + 5] == SetIndexBuffer(r.indexBuffer.value, Uint16) &&
        cmds[6 * j + 6] == DrawIndexed(0, r.indicesCount, 0, 0, 1)
  {
    var k := JoinLen(rs, ts);
    PassReadyWhenOk(rs, ts, shaders, acquire, view);
    TraceUpToBlocks(rs, ts, shaders, k);
    var js := Join(rs, ts);
    var body := Blocks(rs, ts, shaders, js);
    var cmds := [BeginRenderPass(view, CLEAR)] + body + [EndRenderPass];
    forall j | 0 <= j < |js| {
      BlockCommands(rs, ts, shaders, js, j, view);
    }
  }

  /** The six commands the pass holds for the `j`-th joined entity, after
      the opening `BeginRenderPass`. */
  lemma BlockCommands(rs: Storage<DrawRenderer>, ts: Storage<Transform>, shaders: map<string, ShaderInfo>, js: seq<nat>, j: nat, view: nat)
    requires forall i :: 0 <= i < |js| ==> Drawable(rs, ts, shaders, js[i])
    requires j < |js|
    ensures var cmds := [BeginRenderPass(view, CLEAR)] + Blocks(rs, ts, shaders, js) + [EndRenderPass];
      var r := rs[js[j]].value;
      var t := ts[js[j]].value;
      cmds[6 * j + 1] == SetPipeline(shaders["default"].pipeline.id) &&
      cmds[6 * j + 2] == SetBindGroup(0, r.diffuse.value) &&
      cmds[6 * j + 3] == SetBindGroup(1, t.bind.value) &&
      cmds[6 * j + 4] == SetVertexBuffer(0, r.vertexBuffer.value) &&
      cmds[6 * j + 5] == SetIndexBuffer(r.indexBuffer.value, Uint16) &&
      cmds[6 * j + 6] == DrawIndexed(0, r.indicesCount, 0, 0, 1)
  {
    PassAt(rs, ts, shaders, js, j, 0, view);
    PassAt(rs, ts, shaders, js, j, 1, view);
    PassAt(rs, ts, shaders, js, j, 2, view);
    PassAt(rs, ts, shaders, js, j, 3, view);
    PassAt(rs, ts, shaders, js, j, 4, view);
    PassAt(rs, ts, shaders, js, j, 5, view);
  }

  /** Command `c` of the `j`-th block, counted within the whole pass. */
  lemma PassAt(rs: Storage<DrawRenderer>, ts: Storage<Transform>, shaders: map<string, ShaderInfo>, js: seq<nat>, j: nat, c: nat, view: nat)
    requires forall i :: 0 <= i < |js| ==> Drawable(rs, ts, shaders, js[i])
    requires j < |js| && c < 6
    ensures ([BeginRenderPass(view, CLEAR)] + Blocks(rs, ts, shaders, js) + [EndRenderPass])[6 * j + c + 1] ==
      DrawBlock(shaders, rs[js[j]].value, ts[js[j]].value)[c]
  {
    BlocksAt(rs, ts, shaders, js, j, c);
  }

  lemma PassReadyWhenOk(rs: Storage<DrawRenderer>, ts: Storage<Transform>, shaders: map<string, ShaderInfo>, acquire: Acquire, view: nat)
    requires Frame(rs, ts, shaders, acquire, view).Ok?
    ensures acquire.Acquired? && ReadyBelow(rs, ts, shaders, JoinLen(rs, ts))
  {
    FrameFailsIff(rs, ts, shaders, acquire, view);
  }

  /** With nothing to draw the frame is cleared and presented, whatever the
      shader registry holds. */
  lemma EmptyFrame(rs: Storage<DrawRenderer>, ts: Storage<Transform>, shaders: map<string, ShaderInfo>, texture: nat, view: nat)
    requires forall e :: !Joined(rs, ts, e)
    ensures Frame(rs, ts, shaders, Acquired(texture), view) == Ok([Submit([BeginRenderPass(view, CLEAR), EndRenderPass]), Present(texture)])
  {
    TraceUpToBlocks(rs, ts, shaders, JoinLen(rs, ts));
    NothingJoined(rs, ts, JoinLen(rs, ts));
    assert [BeginRenderPass(view, CLEAR)] + [] + [EndRenderPass] == [BeginRenderPass(view, CLEAR), EndRenderPass];
  }

  // ---------------------------------------------------------------- system

  /** `RenderSystem::run`. The view of the acquired texture is the one object
      it creates. */
  method Run(rs: Storage<DrawRenderer>, ts: Storage<Transform>, shaders: ShaderManager, acquire: Acquire, gpu: Gpu)
    returns (failure: Option<Panic>)
    modifies gpu
    ensures var f := Frame(rs, ts, shaders.shaders, acquire, old(gpu.next));
      (failure.None? <==> f.Ok?) &&
      (f.Ok? ==> gpu.calls == old(gpu.calls) + f.value) &&
      (f.Err? ==> failure == Some(f.panic) && gpu.calls == old(gpu.calls))
    ensures gpu.next == if acquire.AcquireFailed? then old(gpu.next) else old(gpu.next) + 1
  {
    if acquire.AcquireFailed? {
      return Some(FrameUnavailable(acquire.error));
    }
    var view := gpu.NewHandle();
    var pass: seq<RenderCommand> := [BeginRenderPass(view, CLEAR)];
    var n := JoinLen(rs, ts);
    for e := 0 to n
      invariant TraceUpTo(rs, ts, shaders.shaders, e).failure.None?
      invariant pass == [BeginRenderPass(view, CLEAR)] + TraceUpTo(rs, ts, shaders.shaders, e).commands
      invariant gpu.calls == old(gpu.calls) && view == old(gpu.next)
      modifies {}
    {
      if rs[e].Some? && ts[e].Some? {
        var renderer := rs[e].value;
        var transform := ts[e].value;
        var blocked := Check(shaders.shaders, renderer, transform, e);
        var shader := shaders.GetShader("default");
        if shader.Err? || blocked.Some? {
          failure := blocked;
          assert TraceUpTo(rs, ts, shaders.shaders, e + 1).failure == blocked;
          TraceFailureSticks(rs, ts, shaders.shaders, e + 1, n);
          return;
        }
        assert Ready(shaders.shaders, renderer, transform);
        ghost var before := pass;
        ghost var block := DrawBlock(shaders.shaders, renderer, transform);
        assert TraceUpTo(rs, ts, shaders.shaders, e + 1).commands == TraceUpTo(rs, ts, shaders.shaders, e).commands + block;
        pass := pass + [SetPipeline(shader.value.pipeline.id)];
        pass := pass + [SetBindGroup(0, renderer.diffuse.value)];
        pass := pass + [SetBindGroup(1, transform.bind.value)];
        pass := pass + [SetVertexBuffer(0, renderer.vertexBuffer.value)];
        pass := pass + [SetIndexBuffer(renderer.indexBuffer.value, Uint16)];
        pass := pass + [DrawIndexed(0, renderer.indicesCount, 0, 0, 1)];
        assert pass == before + block;
      }
    }
    pass := pass + [EndRenderPass];
    gpu.Record(Submit(pass));
    gpu.Record(Present(acquire.texture));
    failure := None;
  }
}
