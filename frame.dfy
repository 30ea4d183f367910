/**
 * One frame of `Game::Draw` as a specification: the commands it issues,
 * pass by pass, and what it does to the reference counts. The lemmas read
 * the log back and state the ordering the frame relies on.
 */
module Frame {
  import opened RefCount
  import opened Device
  import opened Pipeline
  import opened Materials

  /** A mesh as the frame uses it: its buffers and its index count. */
  datatype Mesh = Mesh(vertexBuffer: Ptr, indexBuffer: Ptr, indexCount: nat)

  /** An entity: a mesh and the material it is drawn with. */
  datatype Entity = Entity(mesh: Mesh, material: Material)

  /** The render targets and states a frame uses. */
  datatype Targets = Targets(
    irRTV: Ptr,       // off-screen target the scene is rendered into
    irSRV: Ptr,       // the same texture, read by the blur pass
    backBuffer: Ptr,
    depthView: Ptr,
    skyRast: Ptr,     // front-face culling
    skyDepth: Ptr)    // less-or-equal depth test

  /** Transparent black. */
  const ClearColour: seq<real> := [0.0, 0.0, 0.0, 0.0]

  /** Blur radius handed to the post-process pixel program. */
  const BlurAmount: int := 9

  // Position of each pass in a frame of n entities:
  // clear 0..3, scene setup 3..10, entity draws 10..10+n,
  // sky pass 10+n..24+n, post-process pass 24+n..38+n.
  const SceneStart: nat := 3
  const DrawsStart: nat := 10
  const SkyLength: nat := 14
  const PostLength: nat := 14

  function ClearPass(t: Targets): seq<Command>
  {
    [ ClearRenderTarget(t.irRTV, ClearColour),
      ClearRenderTarget(t.backBuffer, ClearColour),
      ClearDepthStencil(t.depthView, 1.0, 0) ]
  }

  /** Output goes to the off-screen target; the first entity's material
      receives the camera, the lights, its sampler and its two views. */
  function SceneSetup(t: Targets, m: Material): seq<Command>
  {
    [ SetRenderTarget(t.irRTV, t.depthView),
      SetParameter(m.vertexShader, "view"),
      SetParameter(m.vertexShader, "projection"),
      SetParameter(m.pixelShader, "lights"),
      SetSampler(m.pixelShader, "Sampler", m.sampler),
      SetShaderResource(m.pixelShader, "Texture", m.shaderResView),
      SetShaderResource(m.pixelShader, "NormalMap", m.normalMap) ]
  }

  function EntityDraws(es: seq<Entity>): seq<Command>
  {
    seq(|es|, i requires 0 <= i < |es| => DrawEntity(i, es[i].mesh.vertexBuffer, es[i].mesh.indexBuffer))
  }

  /** The skybox, drawn with `mesh` under the sky states, which are then
      put back to the defaults. */
  function SkyPass(t: Targets, mesh: Mesh, sky: Material): seq<Command>
  {
    [ SetVertexBuffer(mesh.vertexBuffer),
      SetIndexBuffer(mesh.indexBuffer),
      SetParameter(sky.vertexShader, "view"),
      SetParameter(sky.vertexShader, "projection"),
      UploadConstants(sky.vertexShader),
      ActivateShader(sky.vertexShader),
      SetShaderResource(sky.pixelShader, "Sky", sky.shaderResView),
      UploadConstants(sky.pixelShader),
      ActivateShader(sky.pixelShader),
      SetRasterizerState(t.skyRast),
      SetDepthStencilState(t.skyDepth),
      DrawIndexed(mesh.indexCount, 0, 0),
      SetRasterizerState(Null),
      SetDepthStencilState(Null) ]
  }

  /** The blur: output to the back buffer, the off-screen texture as input,
      a full-screen triangle without vertex input, unbind, present. */
  function PostPass(t: Targets, sampler: Ptr, blur: Material): seq<Command>
  {
    [ SetRenderTarget(t.backBuffer, Null),
      ActivateShader(blur.vertexShader),
      ActivateShader(blur.pixelShader),
      SetShaderResource(blur.pixelShader, "InitialRender", t.irSRV),
      SetSampler(blur.pixelShader, "Sampler", sampler),
      SetInt(blur.pixelShader, "blurAmount", BlurAmount),
      SetParameter(blur.pixelShader, "pixelWidth"),
      SetParameter(blur.pixelShader, "pixelHeight"),
      UploadConstants(blur.pixelShader),
      SetVertexBuffer(Null),
      SetIndexBuffer(Null),
      Draw(3, 0),
      SetShaderResource(blur.pixelShader, "InitialRender", Null),
      Present(0, 0) ]
  }

  /** The clears and the scene setup: everything before the first draw. */
  function Head(t: Targets, m: Material): seq<Command>
  {
    ClearPass(t) + SceneSetup(t, m)
  }

  /** Everything one call of `Draw` issues. The skybox is drawn with the
      first entity's mesh, and the blur samples with the first entity's
      sampler. */
  function FrameLog(t: Targets, es: seq<Entity>, sky: Material, blur: Material): seq<Command>
    requires |es| > 0
  {
    Head(t, es[0].material) + EntityDraws(es)
    + SkyPass(t, es[0].mesh, sky) + PostPass(t, es[0].material.sampler, blur)
  }

  /** The frame opens with the three clears. */
  lemma ClearsComeFirst(t: Targets, es: seq<Entity>, sky: Material, blur: Material)
    requires |es| > 0
    ensures var L := FrameLog(t, es, sky, blur);
      && |L| == DrawsStart + |es| + SkyLength + PostLength
      && L[0] == ClearRenderTarget(t.irRTV, ClearColour)
      && L[1] == ClearRenderTarget(t.backBuffer, ClearColour)
      && L[2] == ClearDepthStencil(t.depthView, 1.0, 0)
  {
    var L := FrameLog(t, es, sky, blur);
    var h := Head(t, es[0].material);
    assert L == h + (EntityDraws(es) + SkyPass(t, es[0].mesh, sky) + PostPass(t, es[0].material.sampler, blur));
    assert L[..SceneStart] == ClearPass(t);
  }

  // Each pass on its own: which of the commands the lemmas look for it holds.

  lemma HeadHolds(p: Command -> bool, t: Targets, m: Material)
    requires forall c :: p(c) ==> IsSubmission(c) || IsPresent(c)
    ensures Filter(p, Head(t, m)) == []
  {
    FilterNone(p, Head(t, m));
  }

  lemma HeadTargetBinds(t: Targets, m: Material)
    ensures Filter(IsTargetBind, Head(t, m)) == [SetRenderTarget(t.irRTV, t.depthView)]
  {
    FilterOne(IsTargetBind, Head(t, m), SceneStart);
  }

  lemma DrawsHold(p: Command -> bool, es: seq<Entity>)
    requires forall c: Command :: c.DrawEntity? ==> p(c)
    ensures Filter(p, EntityDraws(es)) == EntityDraws(es)
  {
    FilterAll(p, EntityDraws(es));
  }

  lemma DrawsHoldNone(p: Command -> bool, es: seq<Entity>)
    requires forall c: Command :: c.DrawEntity? ==> !p(c)
    ensures Filter(p, EntityDraws(es)) == []
  {
    FilterNone(p, EntityDraws(es));
  }

  lemma SkyHoldsNone(p: Command -> bool, t: Targets, mesh: Mesh, sky: Material)
    requires forall c :: p(c) ==> c.DrawEntity? || c.Present? || c.SetRenderTarget?
    ensures Filter(p, SkyPass(t, mesh, sky)) == []
  {
    FilterNone(p, SkyPass(t, mesh, sky));
  }

  lemma SkySubmissions(t: Targets, mesh: Mesh, sky: Material)
    ensures Filter(IsSubmission, SkyPass(t, mesh, sky)) == [DrawIndexed(mesh.indexCount, 0, 0)]
  {
    FilterOne(IsSubmission, SkyPass(t, mesh, sky), 11);
  }

  lemma PostEntityDraws(t: Targets, sampler: Ptr, blur: Material)
    ensures Filter(IsEntityDraw, PostPass(t, sampler, blur)) == []
  {
    FilterNone(IsEntityDraw, PostPass(t, sampler, blur));
  }

  lemma PostPresents(t: Targets, sampler: Ptr, blur: Material)
    ensures Filter(IsPresent, PostPass(t, sampler, blur)) == [Present(0, 0)]
  {
    FilterOne(IsPresent, PostPass(t, sampler, blur), 13);
  }

  lemma PostSubmissions(t: Targets, sampler: Ptr, blur: Material)
    ensures Filter(IsSubmission, PostPass(t, sampler, blur)) == [Draw(3, 0)]
  {
    FilterOne(IsSubmission, PostPass(t, sampler, blur), 11);
  }

  lemma PostTargetBinds(t: Targets, sampler: Ptr, blur: Material)
    ensures Filter(IsTargetBind, PostPass(t, sampler, blur)) == [SetRenderTarget(t.backBuffer, Null)]
  {
    FilterOne(IsTargetBind, PostPass(t, sampler, blur), 0);
  }

  /** Filtering a frame is filtering each of its passes. */
  lemma FilterFrame(p: Command -> bool, t: Targets, es: seq<Entity>, sky: Material, blur: Material)
    requires |es| > 0
    ensures Filter(p, FrameLog(t, es, sky, blur))
      == Filter(p, Head(t, es[0].material)) + Filter(p, EntityDraws(es))
       + Filter(p, SkyPass(t, es[0].mesh, sky)) + Filter(p, PostPass(t, es[0].material.sampler, blur))
  {
    var head := Head(t, es[0].material);
    var draws := EntityDraws(es);
    var skyPass := SkyPass(t, es[0].mesh, sky);
    var post := PostPass(t, es[0].material.sampler, blur);
    FilterAppend(p, head + draws + skyPass, post);
    FilterAppend(p, head + draws, skyPass);
    FilterAppend(p, head, draws);
  }

  /** Every entity is drawn exactly once, in index order, and no other
      entity draw is issued. */
  lemma EntitiesDrawnInOrder(t: Targets, es: seq<Entity>, sky: Material, blur: Material)
    requires |es| > 0
    ensures Filter(IsEntityDraw, FrameLog(t, es, sky, blur)) == EntityDraws(es)
  {
    FilterFrame(IsEntityDraw, t, es, sky, blur);
    HeadHolds(IsEntityDraw, t, es[0].material);
    DrawsHold(IsEntityDraw, es);
    SkyHoldsNone(IsEntityDraw, t, es[0].mesh, sky);
    PostEntityDraws(t, es[0].material.sampler, blur);
    var draws := EntityDraws(es);
    assert [] + draws + [] + [] == draws;
  }

  /** A frame submits one draw per entity, the skybox and the full-screen
      triangle, in that order. */
  lemma SubmissionsPerFrame(t: Targets, es: seq<Entity>, sky: Material, blur: Material)
    requires |es| > 0
    ensures Filter(IsSubmission, FrameLog(t, es, sky, blur))
      == EntityDraws(es) + [DrawIndexed(es[0].mesh.indexCount, 0, 0)] + [Draw(3, 0)]
    ensures Count(IsSubmission, FrameLog(t, es, sky, blur)) == |es| + 2
  {
    FilterFrame(IsSubmission, t, es, sky, blur);
    HeadHolds(IsSubmission, t, es[0].material);
    DrawsHold(IsSubmission, es);
    SkySubmissions(t, es[0].mesh, sky);
    PostSubmissions(t, es[0].material.sampler, blur);
    assert [] + EntityDraws(es) == EntityDraws(es);
  }

  /** `Present` is issued once per frame, as its last command. */
  lemma PresentLast(t: Targets, es: seq<Entity>, sky: Material, blur: Material)
    requires |es| > 0
    ensures var L := FrameLog(t, es, sky, blur);
      && L[|L| - 1] == Present(0, 0)
      && Filter(IsPresent, L) == [Present(0, 0)]
  {
    FilterFrame(IsPresent, t, es, sky, blur);
    HeadHolds(IsPresent, t, es[0].material);
    DrawsHoldNone(IsPresent, es);
    SkyHoldsNone(IsPresent, t, es[0].mesh, sky);
    PostPresents(t, es[0].material.sampler, blur);
    assert [] + [] + [] + [Present(0, 0)] == [Present(0, 0)];
  }

  /** Output is bound twice per frame: to the off-screen target for the
      scene and the skybox, then to the back buffer, without depth, for
      the blur. */
  lemma TargetBindsPerFrame(t: Targets, es: seq<Entity>, sky: Material, blur: Material)
    requires |es| > 0
    ensures Filter(IsTargetBind, FrameLog(t, es, sky, blur))
      == [SetRenderTarget(t.irRTV, t.depthView), SetRenderTarget(t.backBuffer, Null)]
  {
    FilterFrame(IsTargetBind, t, es, sky, blur);
    HeadTargetBinds(t, es[0].material);
    DrawsHoldNone(IsTargetBind, es);
    SkyHoldsNone(IsTargetBind, t, es[0].mesh, sky);
    PostTargetBinds(t, es[0].material.sampler, blur);
    var first, second := SetRenderTarget(t.irRTV, t.depthView), SetRenderTarget(t.backBuffer, Null);
    assert [first] + [] + [] + [second] == [first, second];
  }

  // The slot state of each pass, as a function of what the slot held when
  // the pass began.

  /** What the head leaves in slot `s`, which held `x` before it. */
  function HeadValue(x: Ptr, t: Targets, m: Material, s: Slot): Ptr
  {
    if s == OutputTarget then t.irRTV
    else if s == DepthTarget then t.depthView
    else if s == SamplerSlot(m.pixelShader, "Sampler") then m.sampler
    else if s == ResourceSlot(m.pixelShader, "Texture") then m.shaderResView
    else if s == ResourceSlot(m.pixelShader, "NormalMap") then m.normalMap
    else x
  }

  /** What slot `s` holds when the skybox is submitted. */
  function SkyDrawValue(x: Ptr, t: Targets, mesh: Mesh, sky: Material, s: Slot): Ptr
  {
    if s == RasterizerSlot then t.skyRast
    else if s == DepthStateSlot then t.skyDepth
    else if s == VertexBufferSlot then mesh.vertexBuffer
    else if s == IndexBufferSlot then mesh.indexBuffer
    else if s == ResourceSlot(sky.pixelShader, "Sky") then sky.shaderResView
    else x
  }

  /** What the sky pass leaves in slot `s`: the sky states are undone. */
  function SkyEndValue(x: Ptr, t: Targets, mesh: Mesh, sky: Material, s: Slot): Ptr
  {
    if s == RasterizerSlot || s == DepthStateSlot then Null
    else SkyDrawValue(x, t, mesh, sky, s)
  }

  /** What slot `s` holds when the full-screen triangle is submitted. */
  function PostDrawValue(x: Ptr, t: Targets, sampler: Ptr, blur: Material, s: Slot): Ptr
  {
    if s == OutputTarget then t.backBuffer
    else if s == DepthTarget || s == VertexBufferSlot || s == IndexBufferSlot then Null
    else if s == ResourceSlot(blur.pixelShader, "InitialRender") then t.irSRV
    else if s == SamplerSlot(blur.pixelShader, "Sampler") then sampler
    else x
  }

  /** What the blur pass leaves in slot `s`: its input is unbound. */
  function PostEndValue(x: Ptr, t: Targets, sampler: Ptr, blur: Material, s: Slot): Ptr
  {
    if s == ResourceSlot(blur.pixelShader, "InitialRender") then Null
    else PostDrawValue(x, t, sampler, blur, s)
  }

  lemma HeadState(x: Ptr, t: Targets, m: Material, s: Slot)
    ensures After(x, Head(t, m), s) == HeadValue(x, t, m, s)
  {
    var h := Head(t, m);
    if s == OutputTarget || s == DepthTarget {
      BoundFromLatest(x, h, 3, 10, s);
    } else if s == SamplerSlot(m.pixelShader, "Sampler") {
      BoundFromLatest(x, h, 7, 10, s);
    } else if s == ResourceSlot(m.pixelShader, "Texture") {
      BoundFromLatest(x, h, 8, 10, s);
    } else if s == ResourceSlot(m.pixelShader, "NormalMap") {
      BoundFromLatest(x, h, 9, 10, s);
    } else {
      BoundFromUntouched(x, h, 10, s);
    }
  }

  /** Entity draws touch only the vertex and index buffers. */
  lemma DrawsState(x: Ptr, es: seq<Entity>, i: nat, s: Slot)
    requires i <= |es| && s != VertexBufferSlot && s != IndexBufferSlot
    ensures BoundFrom(x, EntityDraws(es), i, s) == x
    ensures After(x, EntityDraws(es), s) == x
  {
    BoundFromUntouched(x, EntityDraws(es), i, s);
    BoundFromUntouched(x, EntityDraws(es), |es|, s);
  }

  lemma SkyState(x: Ptr, t: Targets, mesh: Mesh, sky: Material, s: Slot)
    ensures BoundFrom(x, SkyPass(t, mesh, sky), 11, s) == SkyDrawValue(x, t, mesh, sky, s)
    ensures After(x, SkyPass(t, mesh, sky), s) == SkyEndValue(x, t, mesh, sky, s)
  {
    SkyDrawn(x, t, mesh, sky, s);
    var y := SkyPass(t, mesh, sky);
    if s == RasterizerSlot {
      BoundFromLatest(x, y, 12, 14, s);
    } else if s == DepthStateSlot {
      BoundFromLatest(x, y, 13, 14, s);
    } else {
      BoundFromSkip(x, y, 11, 14, s);
    }
  }

  lemma SkyDrawn(x: Ptr, t: Targets, mesh: Mesh, sky: Material, s: Slot)
    ensures BoundFrom(x, SkyPass(t, mesh, sky), 11, s) == SkyDrawValue(x, t, mesh, sky, s)
  {
    var y := SkyPass(t, mesh, sky);
    if s == RasterizerSlot {
      BoundFromLatest(x, y, 9, 11, s);
    } else if s == DepthStateSlot {
      BoundFromLatest(x, y, 10, 11, s);
    } else if s == VertexBufferSlot {
      BoundFromLatest(x, y, 0, 11, s);
    } else if s == IndexBufferSlot {
      BoundFromLatest(x, y, 1, 11, s);
    } else if s == ResourceSlot(sky.pixelShader, "Sky") {
      BoundFromLatest(x, y, 6, 11, s);
    } else {
      BoundFromUntouched(x, y, 11, s);
    }
  }

  lemma PostState(x: Ptr, t: Targets, sampler: Ptr, blur: Material, s: Slot)
    ensures BoundFrom(x, PostPass(t, sampler, blur), 11, s) == PostDrawValue(x, t, sampler, blur, s)
    ensures After(x, PostPass(t, sampler, blur), s) == PostEndValue(x, t, sampler, blur, s)
  {
    PostDrawn(x, t, sampler, blur, s);
    var e := PostPass(t, sampler, blur);
    if s == ResourceSlot(blur.pixelShader, "InitialRender") {
      BoundFromLatest(x, e, 12, 14, s);
    } else {
      BoundFromSkip(x, e, 11, 14, s);
    }
  }

  lemma PostDrawn(x: Ptr, t: Targets, sampler: Ptr, blur: Material, s: Slot)
    ensures BoundFrom(x, PostPass(t, sampler, blur), 11, s) == PostDrawValue(x, t, sampler, blur, s)
  {
    var e := PostPass(t, sampler, blur);
    if s == OutputTarget || s == DepthTarget {
      BoundFromLatest(x, e, 0, 11, s);
    } else if s == VertexBufferSlot {
      BoundFromLatest(x, e, 9, 11, s);
    } else if s == IndexBufferSlot {
      BoundFromLatest(x, e, 10, 11, s);
    } else if s == ResourceSlot(blur.pixelShader, "InitialRender") {
      BoundFromLatest(x, e, 3, 11, s);
    } else if s == SamplerSlot(blur.pixelShader, "Sampler") {
      BoundFromLatest(x, e, 4, 11, s);
    } else {
      BoundFromUntouched(x, e, 11, s);
    }
  }

  // The slot state within a frame whose slot `s` held `x` before it.

  /** At an entity draw: the head's bindings, and `x` in the other slots. */
  lemma EntityDrawFrom(x: Ptr, t: Targets, es: seq<Entity>, sky: Material, blur: Material, k: nat, s: Slot)
    requires |es| > 0 && DrawsStart <= k < DrawsStart + |es|
    requires s != VertexBufferSlot && s != IndexBufferSlot
    ensures var F := FrameLog(t, es, sky, blur);
      k < |F| && F[k].DrawEntity? && BoundFrom(x, F, k, s) == HeadValue(x, t, es[0].material, s)
  {
    var h := Head(t, es[0].material);
    var d := EntityDraws(es);
    var y := SkyPass(t, es[0].mesh, sky);
    var e := PostPass(t, es[0].material.sampler, blur);
    assert FrameLog(t, es, sky, blur)[k] == d[k - DrawsStart];
    BoundFromPrefix(x, h + d + y, e, k, s);
    BoundFromPrefix(x, h + d, y, k, s);
    BoundFromAppend(x, h, d, k, s);
    HeadState(x, t, es[0].material, s);
    DrawsState(After(x, h, s), es, k - DrawsStart, s);
  }

  /** At the skybox draw. */
  lemma SkyDrawFrom(x: Ptr, t: Targets, es: seq<Entity>, sky: Material, blur: Material, s: Slot)
    requires |es| > 0
    ensures var F := FrameLog(t, es, sky, blur);
      var k := DrawsStart + |es| + 11;
      && k < |F| && F[k] == DrawIndexed(es[0].mesh.indexCount, 0, 0)
      && BoundFrom(x, F, k, s) == SkyDrawValue(HeadValue(x, t, es[0].material, s), t, es[0].mesh, sky, s)
  {
    var h := Head(t, es[0].material);
    var d := EntityDraws(es);
    var y := SkyPass(t, es[0].mesh, sky);
    var e := PostPass(t, es[0].material.sampler, blur);
    var k := DrawsStart + |es| + 11;
    assert FrameLog(t, es, sky, blur)[k] == y[11];
    BoundFromPrefix(x, h + d + y, e, k, s);
    BoundFromAppend(x, h + d, y, k, s);
    AfterAppend(x, h, d, s);
    SkyState(After(After(x, h, s), d, s), t, es[0].mesh, sky, s);
    if s != VertexBufferSlot && s != IndexBufferSlot {
      HeadState(x, t, es[0].material, s);
      DrawsState(After(x, h, s), es, |es|, s);
    }
  }

  /** When the blur pass begins. */
  lemma PostStartFrom(x: Ptr, t: Targets, es: seq<Entity>, sky: Material, blur: Material, s: Slot)
    requires |es| > 0
    ensures var F := FrameLog(t, es, sky, blur);
      var b := DrawsStart + |es| + SkyLength;
      && b < |F| && F[b] == SetRenderTarget(t.backBuffer, Null)
      && BoundFrom(x, F, b, s) == SkyEndValue(HeadValue(x, t, es[0].material, s), t, es[0].mesh, sky, s)
  {
    var h := Head(t, es[0].material);
    var d := EntityDraws(es);
    var y := SkyPass(t, es[0].mesh, sky);
    var e := PostPass(t, es[0].material.sampler, blur);
    var b := DrawsStart + |es| + SkyLength;
    assert FrameLog(t, es, sky, blur)[b] == e[0];
    BoundFromPrefix(x, h + d + y, e, b, s);
    AfterAppend(x, h + d, y, s);
    AfterAppend(x, h, d, s);
    SkyState(After(After(x, h, s), d, s), t, es[0].mesh, sky, s);
    if s != VertexBufferSlot && s != IndexBufferSlot {
      HeadState(x, t, es[0].material, s);
      DrawsState(After(x, h, s), es, |es|, s);
    }
  }

  /** At the full-screen draw, and at the end of the frame. */
  lemma PostDrawFrom(x: Ptr, t: Targets, es: seq<Entity>, sky: Material, blur: Material, s: Slot)
    requires |es| > 0
    ensures var F := FrameLog(t, es, sky, blur);
      var k := DrawsStart + |es| + SkyLength + 11;
      var z := SkyEndValue(HeadValue(x, t, es[0].material, s), t, es[0].mesh, sky, s);
      && k < |F| && F[k] == Draw(3, 0)
      && BoundFrom(x, F, k, s) == PostDrawValue(z, t, es[0].material.sampler, blur, s)
      && After(x, F, s) == PostEndValue(z, t, es[0].material.sampler, blur, s)
  {
    var h := Head(t, es[0].material);
    var d := EntityDraws(es);
    var y := SkyPass(t, es[0].mesh, sky);
    var e := PostPass(t, es[0].material.sampler, blur);
    var k := DrawsStart + |es| + SkyLength + 11;
    assert FrameLog(t, es, sky, blur)[k] == e[11];
    BoundFromAppend(x, h + d + y, e, k, s);
    AfterAppend(x, h + d + y, e, s);
    AfterAppend(x, h + d, y, s);
    AfterAppend(x, h, d, s);
    SkyState(After(After(x, h, s), d, s), t, es[0].mesh, sky, s);
    PostState(After(After(After(x, h, s), d, s), y, s), t, es[0].material.sampler, blur, s);
    if s != VertexBufferSlot && s != IndexBufferSlot {
      HeadState(x, t, es[0].material, s);
      DrawsState(After(x, h, s), es, |es|, s);
    }
  }

  // The same, for a frame appended to a log `P` of earlier commands: each
  // slot starts the frame with what `P` left in it.

  /** Reading a position of `F` inside `P + F`. */
  lemma InFrame(P: seq<Command>, F: seq<Command>, k: nat, s: Slot)
    requires k < |F|
    ensures (P + F)[|P| + k] == F[k]
    ensures BoundAt(P + F, |P| + k, s) == BoundFrom(After(Null, P, s), F, k, s)
  {
    BoundFromAppend(Null, P, F, |P| + k, s);
  }

  lemma EntityDrawState(P: seq<Command>, t: Targets, es: seq<Entity>, sky: Material, blur: Material, k: nat, s: Slot)
    requires |es| > 0 && DrawsStart <= k < DrawsStart + |es|
    requires s != VertexBufferSlot && s != IndexBufferSlot
    ensures var L := P + FrameLog(t, es, sky, blur);
      && |P| + k < |L| && L[|P| + k].DrawEntity?
      && BoundAt(L, |P| + k, s) == HeadValue(After(Null, P, s), t, es[0].material, s)
  {
    EntityDrawFrom(After(Null, P, s), t, es, sky, blur, k, s);
    InFrame(P, FrameLog(t, es, sky, blur), k, s);
  }

  lemma SkyDrawState(P: seq<Command>, t: Targets, es: seq<Entity>, sky: Material, blur: Material, s: Slot)
    requires |es| > 0
    ensures var L := P + FrameLog(t, es, sky, blur);
      var k := |P| + DrawsStart + |es| + 11;
      && k < |L| && L[k] == DrawIndexed(es[0].mesh.indexCount, 0, 0)
      && BoundAt(L, k, s) == SkyDrawValue(HeadValue(After(Null, P, s), t, es[0].material, s), t, es[0].mesh, sky, s)
  {
    SkyDrawFrom(After(Null, P, s), t, es, sky, blur, s);
    InFrame(P, FrameLog(t, es, sky, blur), DrawsStart + |es| + 11, s);
  }

  lemma PostStartState(P: seq<Command>, t: Targets, es: seq<Entity>, sky: Material, blur: Material, s: Slot)
    requires |es| > 0
    ensures var L := P + FrameLog(t, es, sky, blur);
      var b := |P| + DrawsStart + |es| + SkyLength;
      && b < |L| && L[b] == SetRenderTarget(t.backBuffer, Null)
      && BoundAt(L, b, s) == SkyEndValue(HeadValue(After(Null, P, s), t, es[0].material, s), t, es[0].mesh, sky, s)
  {
    PostStartFrom(After(Null, P, s), t, es, sky, blur, s);
    InFrame(P, FrameLog(t, es, sky, blur), DrawsStart + |es| + SkyLength, s);
  }

  lemma PostDrawState(P: seq<Command>, t: Targets, es: seq<Entity>, sky: Material, blur: Material, s: Slot)
    requires |es| > 0
    ensures var L := P + FrameLog(t, es, sky, blur);
      var k := |P| + DrawsStart + |es| + SkyLength + 11;
      var x := SkyEndValue(HeadValue(After(Null, P, s), t, es[0].material, s), t, es[0].mesh, sky, s);
      && k < |L| && L[k] == Draw(3, 0)
      && BoundAt(L, k, s) == PostDrawValue(x, t, es[0].material.sampler, blur, s)
      && After(Null, L, s) == PostEndValue(x, t, es[0].material.sampler, blur, s)
  {
    var F := FrameLog(t, es, sky, blur);
    PostDrawFrom(After(Null, P, s), t, es, sky, blur, s);
    InFrame(P, F, DrawsStart + |es| + SkyLength + 11, s);
    AfterAppend(Null, P, F, s);
  }

  /** The default rasterizer and depth states are in effect after `L`. */
  predicate StatesReset(L: seq<Command>)
  {
    After(Null, L, RasterizerSlot) == Null && After(Null, L, DepthStateSlot) == Null
  }

  /** The pipeline state the submission `L[k]` of a frame runs under, the
      pipeline starting from its defaults before `L[0]`. */
  predicate StateAtSubmission(L: seq<Command>, k: nat, t: Targets, es: seq<Entity>, sky: Material, blur: Material)
    requires k < |L| && |es| > 0
  {
    var m := es[0].material;
    match L[k]
    case DrawEntity(_, _, _) =>
      && BoundAt(L, k, OutputTarget) == t.irRTV
      && BoundAt(L, k, DepthTarget) == t.depthView
      && BoundAt(L, k, RasterizerSlot) == Null
      && BoundAt(L, k, DepthStateSlot) == Null
      && BoundAt(L, k, SamplerSlot(m.pixelShader, "Sampler")) == m.sampler
      && BoundAt(L, k, ResourceSlot(m.pixelShader, "Texture")) == m.shaderResView
      && BoundAt(L, k, ResourceSlot(m.pixelShader, "NormalMap")) == m.normalMap
    case DrawIndexed(_, _, _) =>
      && BoundAt(L, k, OutputTarget) == t.irRTV
      && BoundAt(L, k, DepthTarget) == t.depthView
      && BoundAt(L, k, RasterizerSlot) == t.skyRast
      && BoundAt(L, k, DepthStateSlot) == t.skyDepth
      && BoundAt(L, k, VertexBufferSlot) == es[0].mesh.vertexBuffer
      && BoundAt(L, k, IndexBufferSlot) == es[0].mesh.indexBuffer
      && BoundAt(L, k, ResourceSlot(sky.pixelShader, "Sky")) == sky.shaderResView
    case Draw(_, _) =>
      && BoundAt(L, k, OutputTarget) == t.backBuffer
      && BoundAt(L, k, DepthTarget) == Null
      && BoundAt(L, k, RasterizerSlot) == Null
      && BoundAt(L, k, DepthStateSlot) == Null
      && BoundAt(L, k, VertexBufferSlot) == Null
      && BoundAt(L, k, IndexBufferSlot) == Null
      && BoundAt(L, k, ResourceSlot(blur.pixelShader, "InitialRender")) == t.irSRV
      && BoundAt(L, k, SamplerSlot(blur.pixelShader, "Sampler")) == m.sampler
    case _ => true
  }

  /** The entity draws run under the default states only when the frame
      starts with them in effect. */
  lemma EntityDrawStates(P: seq<Command>, t: Targets, es: seq<Entity>, sky: Material, blur: Material, k: nat)
    requires |es| > 0 && DrawsStart <= k < DrawsStart + |es|
    requires StatesReset(P)
    ensures var L := P + FrameLog(t, es, sky, blur);
      |P| + k < |L| && StateAtSubmission(L, |P| + k, t, es, sky, blur)
  {
    var m := es[0].material;
    EntityDrawState(P, t, es, sky, blur, k, OutputTarget);
    EntityDrawState(P, t, es, sky, blur, k, DepthTarget);
    EntityDrawState(P, t, es, sky, blur, k, RasterizerSlot);
    EntityDrawState(P, t, es, sky, blur, k, DepthStateSlot);
    EntityDrawState(P, t, es, sky, blur, k, SamplerSlot(m.pixelShader, "Sampler"));
    EntityDrawState(P, t, es, sky, blur, k, ResourceSlot(m.pixelShader, "Texture"));
    EntityDrawState(P, t, es, sky, blur, k, ResourceSlot(m.pixelShader, "NormalMap"));
  }

  lemma SkyDrawStates(P: seq<Command>, t: Targets, es: seq<Entity>, sky: Material, blur: Material)
    requires |es| > 0
    ensures var L := P + FrameLog(t, es, sky, blur);
      var k := |P| + DrawsStart + |es| + 11;
      k < |L| && StateAtSubmission(L, k, t, es, sky, blur)
  {
    SkyDrawState(P, t, es, sky, blur, OutputTarget);
    SkyDrawState(P, t, es, sky, blur, DepthTarget);
    SkyDrawState(P, t, es, sky, blur, RasterizerSlot);
    SkyDrawState(P, t, es, sky, blur, DepthStateSlot);
    SkyDrawState(P, t, es, sky, blur, VertexBufferSlot);
    SkyDrawState(P, t, es, sky, blur, IndexBufferSlot);
    SkyDrawState(P, t, es, sky, blur, ResourceSlot(sky.pixelShader, "Sky"));
  }

  lemma PostDrawStates(P: seq<Command>, t: Targets, es: seq<Entity>, sky: Material, blur: Material)
    requires |es| > 0
    ensures var L := P + FrameLog(t, es, sky, blur);
      var k := |P| + DrawsStart + |es| + SkyLength + 11;
      k < |L| && StateAtSubmission(L, k, t, es, sky, blur)
  {
    PostDrawState(P, t, es, sky, blur, OutputTarget);
    PostDrawState(P, t, es, sky, blur, DepthTarget);
    PostDrawState(P, t, es, sky, blur, RasterizerSlot);
    PostDrawState(P, t, es, sky, blur, DepthStateSlot);
    PostDrawState(P, t, es, sky, blur, VertexBufferSlot);
    PostDrawState(P, t, es, sky, blur, IndexBufferSlot);
    PostDrawState(P, t, es, sky, blur, ResourceSlot(blur.pixelShader, "InitialRender"));
    PostDrawState(P, t, es, sky, blur, SamplerSlot(blur.pixelShader, "Sampler"));
  }

  /** Every submission of a frame appended to `P` runs under the state its
      pass set up: entities into the off-screen target with the default
      states, the skybox under the sky states, the blur into the back
      buffer with the defaults restored, no vertex input and the off-screen
      texture bound. The first needs the default states in effect after
      `P`; the other two hold after any `P`. */
  lemma SubmissionStates(P: seq<Command>, t: Targets, es: seq<Entity>, sky: Material, blur: Material)
    requires |es| > 0 && StatesReset(P)
    ensures var L := P + FrameLog(t, es, sky, blur);
      forall k :: |P| <= k < |L| && IsSubmission(L[k]) ==> StateAtSubmission(L, k, t, es, sky, blur)
  {
    var L := P + FrameLog(t, es, sky, blur);
    forall k | |P| <= k < |L| && IsSubmission(L[k])
      ensures StateAtSubmission(L, k, t, es, sky, blur)
    {
      SubmissionState(P, t, es, sky, blur, k - |P|);
    }
  }

  lemma SubmissionState(P: seq<Command>, t: Targets, es: seq<Entity>, sky: Material, blur: Material, j: nat)
    requires |es| > 0 && StatesReset(P) && j < |FrameLog(t, es, sky, blur)|
    requires IsSubmission((P + FrameLog(t, es, sky, blur))[|P| + j])
    ensures StateAtSubmission(P + FrameLog(t, es, sky, blur), |P| + j, t, es, sky, blur)
  {
    var F := FrameLog(t, es, sky, blur);
    assert (P + F)[|P| + j] == F[j];
    SubmissionPosition(t, es, sky, blur, j);
    if j < DrawsStart + |es| {
      EntityDrawStates(P, t, es, sky, blur, j);
    } else if j == DrawsStart + |es| + 11 {
      SkyDrawStates(P, t, es, sky, blur);
    } else {
      PostDrawStates(P, t, es, sky, blur);
    }
  }

  /** The only submissions are the entity draws and the two fixed draws. */
  lemma SubmissionPosition(t: Targets, es: seq<Entity>, sky: Material, blur: Material, k: nat)
    requires |es| > 0 && k < |FrameLog(t, es, sky, blur)|
    ensures IsSubmission(FrameLog(t, es, sky, blur)[k]) ==>
      || DrawsStart <= k < DrawsStart + |es|
      || k == DrawsStart + |es| + 11
      || k == DrawsStart + |es| + SkyLength + 11
  {
    var L := FrameLog(t, es, sky, blur);
    var h := Head(t, es[0].material);
    var y := SkyPass(t, es[0].mesh, sky);
    var e := PostPass(t, es[0].material.sampler, blur);
    var n := |es|;
    if k < DrawsStart {
      assert L[k] == h[k];
    } else if DrawsStart + n <= k < DrawsStart + n + SkyLength {
      assert L[k] == y[k - (DrawsStart + n)];
    } else if DrawsStart + n + SkyLength <= k {
      assert L[k] == e[k - (DrawsStart + n + SkyLength)];
    }
  }

  /** The sky states are back to the defaults when output switches to the
      back buffer, whatever came before the frame. */
  lemma DefaultsBeforeBackBuffer(P: seq<Command>, t: Targets, es: seq<Entity>, sky: Material, blur: Material)
    requires |es| > 0
    ensures var L := P + FrameLog(t, es, sky, blur);
      var b := |P| + DrawsStart + |es| + SkyLength;
      && b < |L|
      && L[b] == SetRenderTarget(t.backBuffer, Null)
      && BoundAt(L, b, OutputTarget) == t.irRTV
      && BoundAt(L, b, RasterizerSlot) == Null
      && BoundAt(L, b, DepthStateSlot) == Null
  {
    PostStartState(P, t, es, sky, blur, OutputTarget);
    PostStartState(P, t, es, sky, blur, RasterizerSlot);
    PostStartState(P, t, es, sky, blur, DepthStateSlot);
  }

  /** Whatever came before it, a frame leaves the off-screen texture
      unbound as the blur's input and the default states in effect, so the
      entity draws of the next frame run under the defaults again. Output
      stays on the back buffer, which the next frame's head rebinds. */
  lemma FrameEnd(P: seq<Command>, t: Targets, es: seq<Entity>, sky: Material, blur: Material)
    requires |es| > 0
    ensures var L := P + FrameLog(t, es, sky, blur);
      && After(Null, L, ResourceSlot(blur.pixelShader, "InitialRender")) == Null
      && StatesReset(L)
      && After(Null, L, OutputTarget) == t.backBuffer
  {
    PostDrawState(P, t, es, sky, blur, ResourceSlot(blur.pixelShader, "InitialRender"));
    PostDrawState(P, t, es, sky, blur, RasterizerSlot);
    PostDrawState(P, t, es, sky, blur, DepthStateSlot);
    PostDrawState(P, t, es, sky, blur, OutputTarget);
  }

  /** Commands appended after a submission do not change the state it ran
      under. */
  lemma StateAtSubmissionPrefix(L: seq<Command>, M: seq<Command>, k: nat, t: Targets, es: seq<Entity>, sky: Material, blur: Material)
    requires k < |L| && |es| > 0
    ensures StateAtSubmission(L + M, k, t, es, sky, blur) == StateAtSubmission(L, k, t, es, sky, blur)
  {
    assert (L + M)[k] == L[k];
    forall s: Slot
      ensures BoundAt(L + M, k, s) == BoundAt(L, k, s)
    {
      BoundFromPrefix(Null, L, M, k, s);
    }
  }

  /** `n` frames, one after another. */
  function FrameLogs(t: Targets, es: seq<Entity>, sky: Material, blur: Material, n: nat): seq<Command>
    requires |es| > 0
  {
    if n == 0 then [] else FrameLogs(t, es, sky, blur, n - 1) + FrameLog(t, es, sky, blur)
  }

  /** After a log that ends with the default states in effect, every
      submission of any number of frames runs under the state its pass set
      up, and the defaults are in effect again at the end. */
  lemma {:induction false} RepeatedFrameStates(P: seq<Command>, t: Targets, es: seq<Entity>, sky: Material, blur: Material, n: nat)
    requires |es| > 0 && StatesReset(P)
    ensures var L := P + FrameLogs(t, es, sky, blur, n);
      && StatesReset(L)
      && forall k :: |P| <= k < |L| && IsSubmission(L[k]) ==> StateAtSubmission(L, k, t, es, sky, blur)
  {
    if n == 0 {
      assert P + FrameLogs(t, es, sky, blur, n) == P;
    } else {
      var F := FrameLog(t, es, sky, blur);
      var Q := P + FrameLogs(t, es, sky, blur, n - 1);
      var L := P + FrameLogs(t, es, sky, blur, n);
      assert L == Q + F;
      RepeatedFrameStates(P, t, es, sky, blur, n - 1);
      SubmissionStates(Q, t, es, sky, blur);
      FrameEnd(Q, t, es, sky, blur);
      forall k | |P| <= k < |Q| && IsSubmission(L[k])
        ensures StateAtSubmission(L, k, t, es, sky, blur)
      {
        assert L[k] == Q[k];
        StateAtSubmissionPrefix(Q, F, k, t, es, sky, blur);
      }
    }
  }

  /** The scene pass borrows the first material's sampler, colour view and
      normal map and gives each back: the counts end where they started. */
  function SceneCounts(c: Counts, m: Material): (r: Counts)
    requires Live(c, m.sampler) && Live(c, m.shaderResView) && Live(c, m.normalMap)
    ensures r == c
  {
    var c1 := AddRef(c, m.sampler);
    var c2 := AddRef(c1, m.shaderResView);
    var c3 := AddRef(c2, m.normalMap);
    var c4 := Release(c3, m.sampler);
    var c5 := Release(c4, m.shaderResView);
    Release(c5, m.normalMap)
  }

  /** The sky pass takes a reference on the sky view and never gives it back. */
  function SkyCounts(c: Counts, sky: Material): (r: Counts)
    requires Live(c, sky.shaderResView)
    ensures Live(r, sky.shaderResView)
    ensures |r| == |c|
    ensures forall id :: 0 <= id < |c| ==> r[id] == if id == sky.shaderResView.id then c[id] + 1 else c[id]
  {
    AddRef(c, sky.shaderResView)
  }

  /** The counts after one frame: only the sky view's count moves, up by one. */
  function FrameCounts(c: Counts, m: Material, sky: Material): (r: Counts)
    requires Live(c, m.sampler) && Live(c, m.shaderResView) && Live(c, m.normalMap)
    requires Live(c, sky.shaderResView)
    ensures r == c[sky.shaderResView.id := c[sky.shaderResView.id] + 1]
  {
    SkyCounts(SceneCounts(c, m), sky)
  }
}
