/**
 * `Game`: builds the scene and the off-screen targets once, then draws
 * frames, and turns mouse drags into camera rotations. The content
 * manager is reduced to the table of materials it hands out by name;
 * the camera is reduced to the rotations it is asked for.
 */
module Games {
  import opened RefCount
  import opened Device
  import opened Pipeline
  import opened Materials
  import opened Frame

  /** A call on the camera made by the drag handler. */
  datatype Rotation = AddRotX(delta: int) | AddRotY(delta: int)

  /** A mouse message, as the window procedure delivers it. */
  datatype MouseEvent = Down(x: int, y: int) | Up | Move(x: int, y: int)

  /** The drag state: whether a button is held, and the last position seen. */
  datatype Drag = Drag(moving: bool, prevX: int, prevY: int)

  /** What one mouse message does to the drag state and the camera. */
  datatype Outcome = Outcome(drag: Drag, turns: seq<Rotation>)

  function Step(d: Drag, e: MouseEvent): Outcome
  {
    match e
    case Down(x, y) => Outcome(Drag(true, x, y), [])
    case Up => Outcome(d.(moving := false), [])
    case Move(x, y) =>
      Outcome(Drag(d.moving, x, y), if d.moving then [AddRotX(d.prevY - y), AddRotY(d.prevX - x)] else [])
  }

  /** A run of mouse messages, one after another. */
  function Replay(d: Drag, es: seq<MouseEvent>): Outcome
    decreases |es|
  {
    if es == [] then Outcome(d, [])
    else
      var first := Step(d, es[0]);
      var rest := Replay(first.drag, es[1..]);
      Outcome(rest.drag, first.turns + rest.turns)
  }

  /** Total rotation about the x axis the camera was asked for. */
  function Pitch(rs: seq<Rotation>): int
  {
    if rs == [] then 0
    else (if rs[0].AddRotX? then rs[0].delta else 0) + Pitch(rs[1..])
  }

  /** Total rotation about the y axis the camera was asked for. */
  function Yaw(rs: seq<Rotation>): int
  {
    if rs == [] then 0
    else (if rs[0].AddRotY? then rs[0].delta else 0) + Yaw(rs[1..])
  }

  lemma {:induction false} PitchAppend(a: seq<Rotation>, b: seq<Rotation>)
    ensures Pitch(a + b) == Pitch(a) + Pitch(b)
  {
    if a != [] {
      assert (a + b)[1..] == a[1..] + b;
      PitchAppend(a[1..], b);
    } else {
      assert a + b == b;
    }
  }

  lemma {:induction false} YawAppend(a: seq<Rotation>, b: seq<Rotation>)
    ensures Yaw(a + b) == Yaw(a) + Yaw(b)
  {
    if a != [] {
      assert (a + b)[1..] == a[1..] + b;
      YawAppend(a[1..], b);
    } else {
      assert a + b == b;
    }
  }

  predicate AllMoves(es: seq<MouseEvent>)
  {
    forall i :: 0 <= i < |es| ==> es[i].Move?
  }

  /** A drag in progress adds up: however the pointer wanders, the camera
      is turned in total by the distance from the first position to the
      last (y difference about x, x difference about y), and the drag ends
      at the last position, still moving. */
  lemma {:induction false} DragAddsUp(d: Drag, es: seq<MouseEvent>)
    requires d.moving && AllMoves(es)
    decreases |es|
    ensures var r := Replay(d, es);
      var last := if es == [] then d else Drag(true, es[|es| - 1].x, es[|es| - 1].y);
      && r.drag == last
      && Pitch(r.turns) == d.prevY - last.prevY
      && Yaw(r.turns) == d.prevX - last.prevX
  {
    if es != [] {
      var first := Step(d, es[0]);
      assert AllMoves(es[1..]) by {
        forall i | 0 <= i < |es[1..]| ensures es[1..][i].Move? {
          assert es[1..][i] == es[i + 1];
        }
      }
      DragAddsUp(first.drag, es[1..]);
      PitchAppend(first.turns, Replay(first.drag, es[1..]).turns);
      YawAppend(first.turns, Replay(first.drag, es[1..]).turns);
      if |es| > 1 {
        assert es[1..][|es[1..]| - 1] == es[|es| - 1];
      }
    }
  }

  /** Without a button held, moving the pointer turns nothing: only the
      last position is kept. */
  lemma {:induction false} HoverTurnsNothing(d: Drag, es: seq<MouseEvent>)
    requires !d.moving && AllMoves(es)
    decreases |es|
    ensures var r := Replay(d, es);
      && r.turns == []
      && r.drag == if es == [] then d else Drag(false, es[|es| - 1].x, es[|es| - 1].y)
  {
    if es != [] {
      var first := Step(d, es[0]);
      assert AllMoves(es[1..]) by {
        forall i | 0 <= i < |es[1..]| ensures es[1..][i].Move? {
          assert es[1..][i] == es[i + 1];
        }
      }
      HoverTurnsNothing(first.drag, es[1..]);
      if |es| > 1 {
        assert es[1..][|es[1..]| - 1] == es[|es| - 1];
      }
    }
  }

  /** A press anywhere followed by moves: the turns add up from the press
      position, whatever the state before the press. */
  lemma DragFromPress(d: Drag, x: int, y: int, es: seq<MouseEvent>)
    requires AllMoves(es)
    ensures var r := Replay(d, [Down(x, y)] + es);
      var last := if es == [] then Drag(true, x, y) else Drag(true, es[|es| - 1].x, es[|es| - 1].y);
      && r.drag == last
      && Pitch(r.turns) == y - last.prevY
      && Yaw(r.turns) == x - last.prevX
  {
    assert ([Down(x, y)] + es)[1..] == es;
    DragAddsUp(Drag(true, x, y), es);
    var rest := Replay(Drag(true, x, y), es);
    assert [] + rest.turns == rest.turns;
  }

  /** The counts after `n` frames with the same first material and sky. */
  function Frames(c: Counts, m: Material, sky: Material, n: nat): (r: Counts)
    requires Live(c, m.sampler) && Live(c, m.shaderResView) && Live(c, m.normalMap)
    requires Live(c, sky.shaderResView)
    ensures r == c[sky.shaderResView.id := c[sky.shaderResView.id] + n]
  {
    if n == 0 then c else FrameCounts(Frames(c, m, sky, n - 1), m, sky)
  }

  /** Setting the primitive topology leaves every slot as it was. */
  lemma TopologyBindsNothing(L: seq<Command>)
    ensures forall s :: After(Null, L + [SetTriangleList], s) == After(Null, L, s)
  {
    forall s ensures After(Null, L + [SetTriangleList], s) == After(Null, L, s) {
      AfterAppend(Null, L, [SetTriangleList], s);
      assert Binds(SetTriangleList, s) == None;
      assert BoundFrom(After(Null, L, s), [SetTriangleList], 0, s) == After(Null, L, s);
    }
  }

  /** `Init` on a fresh device followed by `n` frames: every submission
      runs under the state its pass set up, the first frame included. */
  lemma InitThenFrames(t: Targets, es: seq<Entity>, sky: Material, blur: Material, n: nat)
    requires |es| > 0
    ensures var L := [SetTriangleList] + FrameLogs(t, es, sky, blur, n);
      forall k :: 0 <= k < |L| && IsSubmission(L[k]) ==> StateAtSubmission(L, k, t, es, sky, blur)
  {
    var L := [SetTriangleList] + FrameLogs(t, es, sky, blur, n);
    TopologyBindsNothing([]);
    assert [] + [SetTriangleList] == [SetTriangleList];
    RepeatedFrameStates([SetTriangleList], t, es, sky, blur, n);
    assert !IsSubmission(L[0]);
  }

  /** With the five entities `Init` builds, a frame makes seven submissions. */
  lemma SevenSubmissions(t: Targets, es: seq<Entity>, sky: Material, blur: Material)
    requires |es| == 5
    ensures Count(IsSubmission, FrameLog(t, es, sky, blur)) == 7
  {
    SubmissionsPerFrame(t, es, sky, blur);
  }

  /** The content manager's table after `Init` loads the three materials. */
  function Library(brick: Material, sky: Material, blur: Material): map<string, Material>
  {
    map["brickLightingNormalMap" := brick, "skyMap" := sky, "Blur" := blur]
  }

  /** The five entities of the scene, all on the brick material. */
  function Scene(brick: Material, cube: Mesh, cone: Mesh, helix: Mesh, torus: Mesh): seq<Entity>
  {
    [Entity(cube, brick), Entity(cone, brick), Entity(helix, brick), Entity(cube, brick), Entity(torus, brick)]
  }

  /** The counts after the off-screen setup of `Init`, on a device that
      has made `n` objects so far: two textures (ids `n`, `n + 1`), then a
      render-target view on each (`n + 2`, `n + 3`), then a shader-resource
      view on each (`n + 4`, `n + 5`), then the two textures' own references
      given back. Each texture ends up held by its two views alone. */
  function OffScreenCounts(c: Counts): Counts
  {
    var n := |c|;
    var targets := TargetCounts(c);
    var inputs := RefCount.AddRef(RefCount.AddRef(targets, Obj(n)) + [1], Obj(n + 1)) + [1];
    RefCount.Release(RefCount.Release(inputs, Obj(n)), Obj(n + 1))
  }

  /** The counts once both textures and their render-target views exist. */
  function TargetCounts(c: Counts): Counts
  {
    var n := |c|;
    var textures := c + [1] + [1];
    RefCount.AddRef(RefCount.AddRef(textures, Obj(n)) + [1], Obj(n + 1)) + [1]
  }

  /** The object descriptions after the same setup: both textures as
      `tex`, and each view naming the texture it was made on. */
  function OffScreenKinds(k: seq<Kind>, tex: Kind): seq<Kind>
  {
    var n := |k|;
    k + [tex] + [tex] + [RenderTargetView(n)] + [RenderTargetView(n + 1)]
      + [ShaderResourceView(n)] + [ShaderResourceView(n + 1)]
  }

  /** The counts after `Init`: the two sky states held once by the game,
      then the off-screen setup. Eight new objects, every older count as it
      was. */
  function InitCounts(c: Counts): Counts
  {
    OffScreenCounts(c + [1] + [1])
  }

  /** Each texture of the off-screen setup ends up held by its two views
      alone, each view by the game alone, and no older count moves. */
  lemma OffScreenHolds(c: Counts)
    ensures OffScreenCounts(c) == c + [2, 2, 1, 1, 1, 1]
  {
    assert TargetCounts(c) == c + [2, 2, 1, 1];
  }

  /** After `Init` the two sky states are held once, by the game, the
      off-screen objects as in `OffScreenHolds`, and no older count moves. */
  lemma InitHolds(c: Counts)
    ensures InitCounts(c) == c + [1, 1, 2, 2, 1, 1, 1, 1]
  {
    OffScreenHolds(c + [1] + [1]);
  }

  /** The object descriptions after `Init`, for a client area of `w` x `h`. */
  function InitKinds(k: seq<Kind>, w: nat, h: nat): seq<Kind>
  {
    OffScreenKinds(k + [RasterizerState(CullFront, true)] + [DepthStencilState(true, LessEqual)],
                   Texture2D(w, h, true, true))
  }

  /** `rtv` and `srv` are views of one texture of `w` x `h` that can be
      both drawn into and sampled. */
  predicate OffScreenIn(k: seq<Kind>, rtv: Ptr, srv: Ptr, w: nat, h: nat)
  {
    && rtv.Obj? && rtv.id < |k| && k[rtv.id].RenderTargetView?
    && srv.Obj? && srv.id < |k| && k[srv.id] == ShaderResourceView(k[rtv.id].resource)
    && k[rtv.id].resource < |k|
    && k[k[rtv.id].resource] == Texture2D(w, h, true, true)
  }

  /** What `Init` sets up, as the device describes it: the sky's
      rasterizer state (front faces culled, depth clipping on) and depth
      state (writes on, less-or-equal test), and a render-target view and a
      shader-resource view on each of two distinct off-screen textures. */
  predicate ConfiguredIn(k: seq<Kind>, rast: Ptr, depth: Ptr,
                         irRTV: Ptr, irSRV: Ptr, bpRTV: Ptr, bpSRV: Ptr, w: nat, h: nat)
  {
    && rast.Obj? && rast.id < |k| && k[rast.id] == RasterizerState(CullFront, true)
    && depth.Obj? && depth.id < |k| && k[depth.id] == DepthStencilState(true, LessEqual)
    && OffScreenIn(k, irRTV, irSRV, w, h) && OffScreenIn(k, bpRTV, bpSRV, w, h)
    && k[irRTV.id].resource != k[bpRTV.id].resource
  }

  /** The objects `Init` creates, numbered from `|k|` in creation order,
      are set up as described, and older descriptions are kept. */
  lemma InitConfigures(k: seq<Kind>, w: nat, h: nat)
    ensures var n := |k|;
      ConfiguredIn(InitKinds(k, w, h), Obj(n), Obj(n + 1), Obj(n + 4), Obj(n + 6), Obj(n + 5), Obj(n + 7), w, h)
    ensures |InitKinds(k, w, h)| == |k| + 8 && InitKinds(k, w, h)[..|k|] == k
  {
  }

  /** Object `p` has the same count, or the same absence, in both tables. */
  predicate Kept(before: Counts, after: Counts, p: Ptr)
  {
    p.Obj? && (p.id < |before| <==> p.id < |after|) && (p.id < |before| ==> after[p.id] == before[p.id])
  }

  class Game {
    const dev: Device
    const width: nat
    const height: nat
    const backBufferRTV: Ptr
    const depthStencilView: Ptr

    var skyRastState: Ptr
    var skyDepthState: Ptr
    var irRTV: Ptr     // off-screen target of the scene
    var irSRV: Ptr     // the same texture, as the blur's input
    var bpRTV: Ptr     // second off-screen texture, created but unused
    var bpSRV: Ptr

    var entities: seq<Entity>
    var materials: map<string, Material>   // the content manager's table
    var cameraTurns: seq<Rotation>

    var moving: bool
    var prevX: int
    var prevY: int

    /** `Game(hInstance)`: a 1280 x 720 client area, not moving, no
        entities; the device, the back buffer view and the depth view come
        from the window setup. */
    constructor (device: Device, backBuffer: Ptr, depthView: Ptr)
      ensures dev == device && backBufferRTV == backBuffer && depthStencilView == depthView
      ensures width == 1280 && height == 720
      ensures !moving && entities == [] && materials == map[] && cameraTurns == []
    {
      dev, backBufferRTV, depthStencilView := device, backBuffer, depthView;
      width, height := 1280, 720;
      moving := false;
      entities, materials, cameraTurns := [], map[], [];
    }

    function DragState(): Drag
      reads this
    {
      Drag(moving, prevX, prevY)
    }

    function FrameTargets(): Targets
      reads this
    {
      Frame.Targets(irRTV, irSRV, backBufferRTV, depthStencilView, skyRastState, skyDepthState)
    }

    /** What `Draw` needs: a first entity and the two named materials on
        this device, with every view and sampler the frame touches alive. */
    ghost predicate Ready()
      reads this, dev
    {
      && dev.Valid()
      && |entities| > 0
      && "skyMap" in materials && "Blur" in materials
      && entities[0].material.dev == dev && materials["skyMap"].dev == dev
      && Live(dev.refs, entities[0].material.sampler)
      && Live(dev.refs, entities[0].material.shaderResView)
      && Live(dev.refs, entities[0].material.normalMap)
      && Live(dev.refs, materials["skyMap"].shaderResView)
    }

    /** What `Init` sets up, as the device describes it. */
    ghost predicate Configured()
      reads this, dev
    {
      ConfiguredIn(dev.kinds, skyRastState, skyDepthState, irRTV, irSRV, bpRTV, bpSRV, width, height)
    }

    /** `Init`, with the content already loaded: five entities on the
        brick material, the two sky states, and two off-screen textures
        that each end up held only by their two views. Returns the two
        textures, which the game keeps no pointer to. */
    method Init(brick: Material, sky: Material, blur: Material, cube: Mesh, cone: Mesh, helix: Mesh, torus: Mesh)
      returns (initialRender: Ptr, brightPixels: Ptr)
      requires dev.Valid()
      modifies this`materials, this`entities, this`skyRastState, this`skyDepthState
      modifies this`irRTV, this`irSRV, this`bpRTV, this`bpSRV, dev`refs, dev`kinds, dev`log
      ensures dev.Valid()
      ensures materials == Library(brick, sky, blur)
      ensures entities == Scene(brick, cube, cone, helix, torus)
      // eight new objects, numbered in creation order from the first free id
      ensures var n := |old(dev.refs)|;
        && skyRastState == Obj(n) && skyDepthState == Obj(n + 1)
        && initialRender == Obj(n + 2) && brightPixels == Obj(n + 3)
        && irRTV == Obj(n + 4) && bpRTV == Obj(n + 5)
        && irSRV == Obj(n + 6) && bpSRV == Obj(n + 7)
      ensures dev.refs == InitCounts(old(dev.refs))
      ensures dev.kinds == InitKinds(old(dev.kinds), width, height)
      ensures dev.log == old(dev.log) + [SetTriangleList]
      ensures Configured()
      // the topology command binds no slot
      ensures forall s :: After(Null, dev.log, s) == After(Null, old(dev.log), s)
    {
      ghost var l0 := dev.log;
      var rasterizer, depthState, irTarget, bpTarget, irInput, bpInput;
      rasterizer, depthState, initialRender, brightPixels, irTarget, bpTarget, irInput, bpInput := CreateDeviceObjects();
      dev.Issue([SetTriangleList]);
      materials, entities := Library(brick, sky, blur), Scene(brick, cube, cone, helix, torus);
      skyRastState, skyDepthState := rasterizer, depthState;
      irRTV, bpRTV, irSRV, bpSRV := irTarget, bpTarget, irInput, bpInput;
      TopologyBindsNothing(l0);
    }

    /** The device objects of `Init`, in creation order: the two sky
        states, the two off-screen textures and their four views. */
    method CreateDeviceObjects() returns (rasterizer: Ptr, depthState: Ptr, initialRender: Ptr, brightPixels: Ptr,
                                          irTarget: Ptr, bpTarget: Ptr, irInput: Ptr, bpInput: Ptr)
      requires dev.Valid()
      modifies dev`refs, dev`kinds
      ensures dev.Valid()
      ensures var n := |old(dev.refs)|;
        && rasterizer == Obj(n) && depthState == Obj(n + 1)
        && initialRender == Obj(n + 2) && brightPixels == Obj(n + 3)
        && irTarget == Obj(n + 4) && bpTarget == Obj(n + 5)
        && irInput == Obj(n + 6) && bpInput == Obj(n + 7)
      ensures dev.refs == InitCounts(old(dev.refs))
      ensures dev.kinds == InitKinds(old(dev.kinds), width, height)
      ensures ConfiguredIn(dev.kinds, rasterizer, depthState, irTarget, irInput, bpTarget, bpInput, width, height)
    {
      ghost var k0 := dev.kinds;
      rasterizer, depthState := CreateSkyStates();
      initialRender, brightPixels, irTarget, bpTarget, irInput, bpInput := CreateOffScreenTargets();
      InitConfigures(k0, width, height);
    }

    /** The rasterizer state (front faces culled, depth clipping on) and
        the depth state (writes on, less-or-equal test) of the skybox. */
    method CreateSkyStates() returns (rasterizer: Ptr, depthState: Ptr)
      requires dev.Valid()
      modifies dev`refs, dev`kinds
      ensures dev.Valid()
      ensures rasterizer == Obj(|old(dev.refs)|) && depthState == Obj(|old(dev.refs)| + 1)
      ensures dev.refs == old(dev.refs) + [1] + [1]
      ensures dev.kinds == old(dev.kinds) + [RasterizerState(CullFront, true)] + [DepthStencilState(true, LessEqual)]
    {
      rasterizer := dev.Create(RasterizerState(CullFront, true));
      depthState := dev.Create(DepthStencilState(true, LessEqual));
    }

    /** The two off-screen textures of the client area's size, a
        render-target view and a shader-resource view on each; the textures
        themselves are released, so only their views hold them. Returns the
        textures and then the four views. */
    method CreateOffScreenTargets() returns (initialRender: Ptr, brightPixels: Ptr,
                                             irTarget: Ptr, bpTarget: Ptr, irInput: Ptr, bpInput: Ptr)
      requires dev.Valid()
      modifies dev`refs, dev`kinds
      ensures dev.Valid()
      ensures var n := |old(dev.refs)|;
        && initialRender == Obj(n) && brightPixels == Obj(n + 1)
        && irTarget == Obj(n + 2) && bpTarget == Obj(n + 3)
        && irInput == Obj(n + 4) && bpInput == Obj(n + 5)
      ensures dev.refs == OffScreenCounts(old(dev.refs))
      ensures dev.kinds == OffScreenKinds(old(dev.kinds), Texture2D(width, height, true, true))
    {
      var tex := Texture2D(width, height, true, true);
      initialRender, brightPixels := CreatePair(tex, tex);
      irTarget, bpTarget := CreateViewPair(RenderTargetView(initialRender.id), RenderTargetView(brightPixels.id));
      irInput, bpInput := CreateViewPair(ShaderResourceView(initialRender.id), ShaderResourceView(brightPixels.id));
      dev.Release(initialRender);
      dev.Release(brightPixels);
    }

    /** Two `Create` calls in a row. */
    method CreatePair(k1: Kind, k2: Kind) returns (p1: Ptr, p2: Ptr)
      requires dev.Valid()
      requires !k1.RenderTargetView? && !k1.ShaderResourceView?
      requires !k2.RenderTargetView? && !k2.ShaderResourceView?
      modifies dev`refs, dev`kinds
      ensures dev.Valid()
      ensures p1 == Obj(|old(dev.refs)|) && p2 == Obj(|old(dev.refs)| + 1)
      ensures dev.refs == old(dev.refs) + [1] + [1]
      ensures dev.kinds == old(dev.kinds) + [k1] + [k2]
    {
      p1 := dev.Create(k1);
      p2 := dev.Create(k2);
    }

    /** Two `CreateView` calls in a row. */
    method CreateViewPair(k1: Kind, k2: Kind) returns (v1: Ptr, v2: Ptr)
      requires dev.Valid()
      requires k1.RenderTargetView? || k1.ShaderResourceView?
      requires k2.RenderTargetView? || k2.ShaderResourceView?
      requires Live(dev.refs, Obj(k1.resource)) && Live(dev.refs, Obj(k2.resource))
      modifies dev`refs, dev`kinds
      ensures dev.Valid()
      ensures v1 == Obj(|old(dev.refs)|) && v2 == Obj(|old(dev.refs)| + 1)
      ensures dev.refs == RefCount.AddRef(RefCount.AddRef(old(dev.refs), Obj(k1.resource)) + [1], Obj(k2.resource)) + [1]
      ensures dev.kinds == old(dev.kinds) + [k1] + [k2]
    {
      v1 := dev.CreateView(k1);
      v2 := dev.CreateView(k2);
    }

    /** `Draw`: one frame. Appends the frame's commands to the log and
        leaves every count as it was except the sky view's, one higher. */
    method Draw()
      requires Ready()
      modifies dev`refs, dev`log
      ensures Ready()
      ensures dev.log == old(dev.log) + FrameLog(FrameTargets(), entities, materials["skyMap"], materials["Blur"])
      ensures dev.refs == FrameCounts(old(dev.refs), entities[0].material, materials["skyMap"])
      // the frame ends on the back buffer with the default states in effect
      ensures StatesReset(dev.log) && After(Null, dev.log, OutputTarget) == backBufferRTV
      // from the default states, each submission runs under the state its pass set up
      ensures StatesReset(old(dev.log)) ==>
        forall k :: |old(dev.log)| <= k < |dev.log| && IsSubmission(dev.log[k]) ==>
          StateAtSubmission(dev.log, k, FrameTargets(), entities, materials["skyMap"], materials["Blur"])
    {
      ghost var l0 := dev.log;
      var sampler := ScenePass();
      DrawEntities();
      SkyboxPass();
      PostProcessPass(sampler);
      FrameEnd(l0, FrameTargets(), entities, materials["skyMap"], materials["Blur"]);
      if StatesReset(l0) {
        SubmissionStates(l0, FrameTargets(), entities, materials["skyMap"], materials["Blur"]);
      }
    }

    /** The clears and the scene pass of `Draw`: borrow the first
        material's sampler and views, hand them to its programs, give them
        back. Returns the borrowed sampler. */
    method ScenePass() returns (sampler: Ptr)
      requires Ready()
      modifies dev`refs, dev`log
      ensures sampler == entities[0].material.sampler
      ensures dev.log == old(dev.log) + Head(FrameTargets(), entities[0].material)
      ensures dev.refs == SceneCounts(old(dev.refs), entities[0].material)
      ensures dev.Valid()
    {
      ghost var c0 := dev.refs;
      ghost var log0 := dev.log;
      var mat := entities[0].material;
      ghost var head := Head(FrameTargets(), mat);
      var batch1 := [ ClearRenderTarget(irRTV, ClearColour),
                      ClearRenderTarget(backBufferRTV, ClearColour),
                      ClearDepthStencil(depthStencilView, 1.0, 0),
                      SetRenderTarget(irRTV, depthStencilView) ];
      dev.Issue(batch1);
      sampler := mat.GetSampler();
      var shaderResView := mat.GetShaderResView();
      var normalMap := mat.GetNormalMap();
      var ps := mat.GetPShader();
      var vs := mat.GetVShader();
      var batch2 := [ SetParameter(vs, "view"),
                      SetParameter(vs, "projection"),
                      SetParameter(ps, "lights"),
                      SetSampler(ps, "Sampler", sampler),
                      SetShaderResource(ps, "Texture", shaderResView),
                      SetShaderResource(ps, "NormalMap", normalMap) ];
      dev.Issue(batch2);
      assert dev.log == log0 + (batch1 + batch2);
      assert batch1 + batch2 == head;
      mat.ReleaseSampler();
      mat.ReleaseShaderResView();
      dev.Release(normalMap);
    }

    /** The loop of `Draw` over the entities, in index order. */
    method DrawEntities()
      modifies dev`log
      ensures dev.log == old(dev.log) + EntityDraws(entities)
    {
      var i := 0;
      while i < |entities|
        invariant 0 <= i <= |entities|
        invariant dev.log == old(dev.log) + EntityDraws(entities)[..i]
      {
        dev.Issue([DrawEntity(i, entities[i].mesh.vertexBuffer, entities[i].mesh.indexBuffer)]);
        assert EntityDraws(entities)[..i + 1] == EntityDraws(entities)[..i] + [EntityDraws(entities)[i]];
        i := i + 1;
      }
      assert EntityDraws(entities)[..i] == EntityDraws(entities);
    }

    /** The skybox pass of `Draw`, with the first entity's mesh. The sky
        view it borrows is not given back. */
    method SkyboxPass()
      requires Ready()
      modifies dev`refs, dev`log
      ensures dev.log == old(dev.log) + SkyPass(FrameTargets(), entities[0].mesh, materials["skyMap"])
      ensures dev.refs == SkyCounts(old(dev.refs), materials["skyMap"])
      ensures dev.Valid()
    {
      var mesh := entities[0].mesh;
      dev.Issue([SetVertexBuffer(mesh.vertexBuffer), SetIndexBuffer(mesh.indexBuffer)]);
      var skyMap := materials["skyMap"];
      var skyPS := skyMap.GetPShader();
      var skyVS := skyMap.GetVShader();
      var skySRV := skyMap.GetShaderResView();
      dev.Issue([ SetParameter(skyVS, "view"),
                  SetParameter(skyVS, "projection"),
                  UploadConstants(skyVS),
                  ActivateShader(skyVS),
                  SetShaderResource(skyPS, "Sky", skySRV),
                  UploadConstants(skyPS),
                  ActivateShader(skyPS),
                  SetRasterizerState(skyRastState),
                  SetDepthStencilState(skyDepthState),
                  DrawIndexed(mesh.indexCount, 0, 0),
                  SetRasterizerState(Null),
                  SetDepthStencilState(Null) ]);
    }

    /** The blur pass of `Draw`, into the back buffer, sampling with the
        sampler borrowed for the scene pass; then present. */
    method PostProcessPass(sampler: Ptr)
      requires "Blur" in materials
      modifies dev`log
      ensures dev.log == old(dev.log) + PostPass(FrameTargets(), sampler, materials["Blur"])
    {
      dev.Issue([SetRenderTarget(backBufferRTV, Null)]);
      var blurMat := materials["Blur"];
      var blurPS := blurMat.GetPShader();
      var blurVS := blurMat.GetVShader();
      dev.Issue([ ActivateShader(blurVS),
                  ActivateShader(blurPS),
                  SetShaderResource(blurPS, "InitialRender", irSRV),
                  SetSampler(blurPS, "Sampler", sampler),
                  SetInt(blurPS, "blurAmount", BlurAmount),
                  SetParameter(blurPS, "pixelWidth"),
                  SetParameter(blurPS, "pixelHeight"),
                  UploadConstants(blurPS),
                  SetVertexBuffer(Null),
                  SetIndexBuffer(Null),
                  Command.Draw(3, 0),
                  SetShaderResource(blurPS, "InitialRender", Null),
                  Present(0, 0) ]);
    }

    /** `~Game`: gives back the two sky states, depth state first. The
        views of the off-screen textures are not released. */
    method Destroy()
      requires dev.Valid() && Configured()
      requires Live(dev.refs, skyDepthState) && Live(dev.refs, skyRastState)
      modifies dev`refs
      ensures dev.Valid()
      ensures dev.refs == RefCount.Release(RefCount.Release(old(dev.refs), skyDepthState), skyRastState)
      ensures Kept(old(dev.refs), dev.refs, irRTV) && Kept(old(dev.refs), dev.refs, irSRV)
      ensures Kept(old(dev.refs), dev.refs, bpRTV) && Kept(old(dev.refs), dev.refs, bpSRV)
    {
      dev.Release(skyDepthState);
      dev.Release(skyRastState);
    }

    /** `OnMouseDown`: start a drag at the pointer. */
    method OnMouseDown(x: int, y: int)
      modifies this`moving, this`prevX, this`prevY
      ensures DragState() == Step(old(DragState()), Down(x, y)).drag
    {
      prevX := x;
      prevY := y;
      moving := true;
    }

    /** `OnMouseUp`: end the drag; the last position is kept. */
    method OnMouseUp(x: int, y: int)
      modifies this`moving
      ensures DragState() == Step(old(DragState()), Up).drag
    {
      moving := false;
    }

    /** `OnMouseMove`: while dragging, turn the camera by the distance
        moved; always remember the position. */
    method OnMouseMove(x: int, y: int)
      modifies this`cameraTurns, this`prevX, this`prevY
      ensures DragState() == Step(old(DragState()), Move(x, y)).drag
      ensures cameraTurns == old(cameraTurns) + Step(old(DragState()), Move(x, y)).turns
    {
      if moving {
        cameraTurns := cameraTurns + [AddRotX(prevY - y), AddRotY(prevX - x)];
      }
      prevX := x;
      prevY := y;
    }
  }
}
