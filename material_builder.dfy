/** systems/material_builder.rs: for every entity with both a material and a
    renderer, create the diffuse bind group if the renderer has none. The
    texture comes from the material manager's cache; a texture that was never
    loaded is fatal and stops the pass. */
module MaterialBuilder {
  import opened Base
  import opened Backend
  import opened Components
  import opened Materials
  import opened Ecs

  /** The bind group `create_bind_group` returns for a cached texture. */
  function DiffuseBindGroup(t: Texture, layout: nat, id: nat): (g: BindGroup)
    ensures g.id == id && g.layout == layout
    ensures g.entries == TextureEntries(t)
  {
    BindGroup(id, Some("diffuse_bind_group"), layout, TextureEntries(t))
  }

  /** State of the pass: the renderer storage, the device's handle counter
      and the panic that stopped it, if any. */
  datatype Pass = Pass(renderers: Storage<DrawRenderer>, next: nat, failure: Option<Panic>)

  /** A joined entity whose renderer has no diffuse bind group yet. */
  predicate Pending(materials: Storage<MaterialSource>, rs: Storage<DrawRenderer>, e: int) {
    Joined(materials, rs, e) && rs[e].value.diffuse.None?
  }

  /** A pending entity whose texture is not in the cache. */
  predicate Missing(materials: Storage<MaterialSource>, rs: Storage<DrawRenderer>, mm: MaterialManager, e: int) {
    Pending(materials, rs, e) && materials[e].value.diffuseTexture !in mm.textures
  }

  predicate NoneMissingBefore(materials: Storage<MaterialSource>, rs: Storage<DrawRenderer>, mm: MaterialManager, k: nat) {
    forall e :: 0 <= e < k && Pending(materials, rs, e) ==> materials[e].value.diffuseTexture in mm.textures
  }

  /** The pending predicate over entity ids. */
  function PendingAt(materials: Storage<MaterialSource>, rs: Storage<DrawRenderer>): nat -> bool {
    e => Pending(materials, rs, e)
  }

  /** How many entities below `k` are pending. */
  function PendingBefore(materials: Storage<MaterialSource>, rs: Storage<DrawRenderer>, k: nat): nat {
    CountBelow(PendingAt(materials, rs), k)
  }

  /** The renderer with its diffuse bind group set. */
  function WithDiffuse(r: DrawRenderer, g: BindGroup): DrawRenderer {
    r.(diffuse := Some(g))
  }

  /** The pass once the loop has visited entities 0 .. k-1. */
  function BuildUpTo(materials: Storage<MaterialSource>, rs: Storage<DrawRenderer>, mm: MaterialManager, next: nat, k: nat): (p: Pass)
    requires k <= |rs|
    ensures |p.renderers| == |rs|
  {
    if k == 0 then Pass(rs, next, None)
    else
      var p := BuildUpTo(materials, rs, mm, next, k - 1);
      if p.failure.Some? || !Pending(materials, p.renderers, k - 1) then p
      else match GetTexture(mm, materials[k - 1].value.diffuseTexture)
        case Err(panic) => Pass(p.renderers, p.next, Some(panic))
        case Ok(t) =>
          var g := DiffuseBindGroup(t, mm.textureLayout, p.next);
          Pass(p.renderers[k - 1 := Some(WithDiffuse(p.renderers[k - 1].value, g))], p.next + 1, None)
  }

  /** One run of the system. */
  function Build(materials: Storage<MaterialSource>, rs: Storage<DrawRenderer>, mm: MaterialManager, next: nat): (p: Pass)
    ensures |p.renderers| == |rs|
  {
    BuildUpTo(materials, rs, mm, next, JoinLen(materials, rs))
  }

  /** While no texture is missing, each entity on its own: a pending entity got
      a bind group over its cached texture with the next free handle, every
      other entity is as it was. */
  lemma {:induction false} BuildUpToAt(materials: Storage<MaterialSource>, rs: Storage<DrawRenderer>, mm: MaterialManager, next: nat, k: nat, e: nat)
    requires k <= |rs| && e < |rs|
    requires NoneMissingBefore(materials, rs, mm, k)
    ensures BuildUpTo(materials, rs, mm, next, k).failure.None?
    ensures BuildUpTo(materials, rs, mm, next, k).next == next + PendingBefore(materials, rs, k)
    ensures BuildUpTo(materials, rs, mm, next, k).renderers[e] ==
      if e < k && Pending(materials, rs, e)
      then
        var t := mm.textures[materials[e].value.diffuseTexture];
        Some(WithDiffuse(rs[e].value, DiffuseBindGroup(t, mm.textureLayout, next + PendingBefore(materials, rs, e))))
      else rs[e]
  {
    if k > 0 {
      BuildUpToAt(materials, rs, mm, next, k - 1, e);
      BuildUpToAt(materials, rs, mm, next, k - 1, k - 1);
      if Pending(materials, rs, k - 1) {
        assert materials[k - 1].value.diffuseTexture in mm.textures;
      }
    }
  }

  /** The first missing texture stops the pass with `TextureNotLoaded`; from
      there on nothing changes. */
  lemma {:induction false} BuildUpToStops(materials: Storage<MaterialSource>, rs: Storage<DrawRenderer>, mm: MaterialManager, next: nat, k: nat, f: nat)
    requires f < k <= |rs|
    requires Missing(materials, rs, mm, f) && NoneMissingBefore(materials, rs, mm, f)
    ensures var q := BuildUpTo(materials, rs, mm, next, f);
      BuildUpTo(materials, rs, mm, next, k) == Pass(q.renderers, q.next, Some(TextureNotLoaded(materials[f].value.diffuseTexture)))
  {
    if k == f + 1 {
      BuildUpToAt(materials, rs, mm, next, f, f);
    } else {
      BuildUpToStops(materials, rs, mm, next, k - 1, f);
    }
  }

  /** Once the pass has failed, later entities change nothing. */
  lemma {:induction false} FailureSticks(materials: Storage<MaterialSource>, rs: Storage<DrawRenderer>, mm: MaterialManager, next: nat, j: nat, k: nat)
    requires j <= k <= |rs|
    requires BuildUpTo(materials, rs, mm, next, j).failure.Some?
    ensures BuildUpTo(materials, rs, mm, next, k) == BuildUpTo(materials, rs, mm, next, j)
  {
    if k > j {
      FailureSticks(materials, rs, mm, next, j, k - 1);
    }
  }

  lemma {:induction false} MissingFails(materials: Storage<MaterialSource>, rs: Storage<DrawRenderer>, mm: MaterialManager, next: nat, k: nat, e: nat)
    requires e < k <= |rs| && Missing(materials, rs, mm, e)
    ensures BuildUpTo(materials, rs, mm, next, k).failure.Some?
    decreases e
  {
    if NoneMissingBefore(materials, rs, mm, e) {
      BuildUpToStops(materials, rs, mm, next, k, e);
    } else {
      var e' :| 0 <= e' < e && Pending(materials, rs, e') && materials[e'].value.diffuseTexture !in mm.textures;
      MissingFails(materials, rs, mm, next, k, e');
    }
  }

  /** The pass fails exactly when some joined entity that still needs a bind
      group names a texture that was never loaded. */
  lemma BuildFailsIff(materials: Storage<MaterialSource>, rs: Storage<DrawRenderer>, mm: MaterialManager, next: nat)
    ensures Build(materials, rs, mm, next).failure.Some? <==> exists e :: Missing(materials, rs, mm, e)
  {
    var k := JoinLen(materials, rs);
    if e :| Missing(materials, rs, mm, e) {
      MissingFails(materials, rs, mm, next, k, e);
    } else if |rs| > 0 {
      forall e | 0 <= e < k && Pending(materials, rs, e)
        ensures materials[e].value.diffuseTexture in mm.textures
      {
        assert !Missing(materials, rs, mm, e);
      }
      BuildUpToAt(materials, rs, mm, next, k, 0);
    }
  }

  /** On failure the panic names the first missing texture in entity order;
      the entities before it got their bind groups and the rest are
      untouched. */
  lemma BuildFailure(materials: Storage<MaterialSource>, rs: Storage<DrawRenderer>, mm: MaterialManager, next: nat, f: nat)
    requires Missing(materials, rs, mm, f) && NoneMissingBefore(materials, rs, mm, f)
    ensures Build(materials, rs, mm, next).failure == Some(TextureNotLoaded(materials[f].value.diffuseTexture))
    ensures forall e :: f <= e < |rs| ==> Build(materials, rs, mm, next).renderers[e] == rs[e]
    ensures forall e :: 0 <= e < f && Pending(materials, rs, e) ==>
      Build(materials, rs, mm, next).renderers[e].Some? && Build(materials, rs, mm, next).renderers[e].value.diffuse.Some?
  {
    var k := JoinLen(materials, rs);
    BuildUpToStops(materials, rs, mm, next, k, f);
    forall e | 0 <= e < |rs|
      ensures f <= e ==> Build(materials, rs, mm, next).renderers[e] == rs[e]
      ensures e < f && Pending(materials, rs, e) ==> Build(materials, rs, mm, next).renderers[e].Some? && Build(materials, rs, mm, next).renderers[e].value.diffuse.Some?
    {
      BuildUpToAt(materials, rs, mm, next, f, e);
    }
  }

  /** A successful pass gives every pending entity a bind group with the
      texture layout, binding its cached texture's view at 0 and its sampler
      at 1, under a handle the device had not handed out before; every other
      entity is untouched. */
  lemma BuildSuccess(materials: Storage<MaterialSource>, rs: Storage<DrawRenderer>, mm: MaterialManager, next: nat)
    requires forall e :: Pending(materials, rs, e) ==> materials[e].value.diffuseTexture in mm.textures
    ensures Build(materials, rs, mm, next).failure.None?
    ensures forall e :: 0 <= e < |rs| && !Pending(materials, rs, e) ==> Build(materials, rs, mm, next).renderers[e] == rs[e]
    ensures forall e :: Pending(materials, rs, e) ==>
      Build(materials, rs, mm, next).renderers[e].Some? &&
      var r := Build(materials, rs, mm, next).renderers[e].value;
      var t := mm.textures[materials[e].value.diffuseTexture];
      r.diffuse.Some? && r == WithDiffuse(rs[e].value, r.diffuse.value) &&
      r.diffuse.value.layout == mm.textureLayout &&
      r.diffuse.value.entries == TextureEntries(t) &&
      next <= r.diffuse.value.id < Build(materials, rs, mm, next).next
  {
    var k := JoinLen(materials, rs);
    assert NoneMissingBefore(materials, rs, mm, k);
    forall e | 0 <= e < |rs|
      ensures Build(materials, rs, mm, next).failure.None?
      ensures !Pending(materials, rs, e) ==> Build(materials, rs, mm, next).renderers[e] == rs[e]
      ensures Pending(materials, rs, e) ==>
        Build(materials, rs, mm, next).renderers[e].Some? &&
        var r := Build(materials, rs, mm, next).renderers[e].value;
        var t := mm.textures[materials[e].value.diffuseTexture];
        r.diffuse.Some? && r == WithDiffuse(rs[e].value, r.diffuse.value) &&
        r.diffuse.value.layout == mm.textureLayout &&
        r.diffuse.value.entries == TextureEntries(t) &&
        next <= r.diffuse.value.id < Build(materials, rs, mm, next).next
    {
      BuildUpToAt(materials, rs, mm, next, k, e);
      if Pending(materials, rs, e) {
        CountBelowMonotone(PendingAt(materials, rs), e, k);
      }
    }
    if |rs| == 0 {
      assert k == 0;
    }
  }

  /** Bind groups created by one pass never share a handle. */
  lemma BuildHandlesDistinct(materials: Storage<MaterialSource>, rs: Storage<DrawRenderer>, mm: MaterialManager, next: nat, e1: nat, e2: nat)
    requires forall e :: Pending(materials, rs, e) ==> materials[e].value.diffuseTexture in mm.textures
    requires Pending(materials, rs, e1) && Pending(materials, rs, e2) && e1 != e2
    ensures var r := Build(materials, rs, mm, next).renderers;
      r[e1].Some? && r[e1].value.diffuse.Some? && r[e2].Some? && r[e2].value.diffuse.Some? &&
      r[e1].value.diffuse.value.id != r[e2].value.diffuse.value.id
  {
    var k := JoinLen(materials, rs);
    BuildUpToAt(materials, rs, mm, next, k, e1);
    BuildUpToAt(materials, rs, mm, next, k, e2);
    if e1 < e2 {
      CountBelowMonotone(PendingAt(materials, rs), e1, e2);
    } else {
      CountBelowMonotone(PendingAt(materials, rs), e2, e1);
    }
  }

  /** After a successful pass a second pass, with any cache, neither fails nor
      changes anything nor creates a bind group. */
  lemma BuildIdempotent(materials: Storage<MaterialSource>, rs: Storage<DrawRenderer>, mm: MaterialManager, mm2: MaterialManager, next: nat, next2: nat)
    requires Build(materials, rs, mm, next).failure.None?
    ensures var once := Build(materials, rs, mm, next).renderers;
      Build(materials, once, mm2, next2) == Pass(once, next2, None)
  {
    var once := Build(materials, rs, mm, next).renderers;
    var k := JoinLen(materials, rs);
    assert JoinLen(materials, once) == k;
    BuildFailsIff(materials, rs, mm, next);
    forall e | 0 <= e < k && Pending(materials, rs, e)
      ensures materials[e].value.diffuseTexture in mm.textures
    {
      assert !Missing(materials, rs, mm, e);
    }
    forall e | 0 <= e < |rs|
      ensures !Pending(materials, once, e)
    {
      BuildUpToAt(materials, rs, mm, next, k, e);
    }
    forall e | 0 <= e < |rs|
      ensures BuildUpTo(materials, once, mm2, next2, k).renderers[e] == once[e]
    {
      BuildUpToAt(materials, once, mm2, next2, k, e);
    }
    NothingCounted(PendingAt(materials, once), k);
    if |rs| > 0 {
      BuildUpToAt(materials, once, mm2, next2, k, 0);
    }
    assert BuildUpTo(materials, once, mm2, next2, k).renderers == once;
  }

  /** `MaterialBuilderSystem::run`. Returns the panic that stopped it. */
  method Run(materials: Storage<MaterialSource>, renderers: array<Option<DrawRenderer>>, mm: MaterialManager, gpu: Gpu)
    returns (failure: Option<Panic>)
    modifies renderers, gpu`next
    ensures Pass(renderers[..], gpu.next, failure) == Build(materials, old(renderers[..]), mm, old(gpu.next))
  {
    ghost var rs := renderers[..];
    var n := JoinLen(materials, renderers[..]);
    for e := 0 to n
      invariant Pass(renderers[..], gpu.next, None) == BuildUpTo(materials, rs, mm, old(gpu.next), e)
    {
      if materials[e].Some? && renderers[e].Some? {
        var needsUpdate := renderers[e].value.diffuse.None?;
        if !needsUpdate {
          continue;
        }
        var texture := GetTexture(mm, materials[e].value.diffuseTexture);
        if texture.Err? {
          failure := Some(texture.panic);
          FailureSticks(materials, rs, mm, old(gpu.next), e + 1, n);
          return;
        }
        var id := gpu.NewHandle();
        var g := DiffuseBindGroup(texture.value, mm.textureLayout, id);
        renderers[e] := Some(WithDiffuse(renderers[e].value, g));
      }
    }
    failure := None;
  }
}
