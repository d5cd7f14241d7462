/** One frame of the forward-rendering pass (`RenderLayer::OnRender`) as the
    trace of state changes and draw calls it issues.

    GPU calls become trace events; matrices are uninterpreted functions of the
    camera and of each renderable's game object, so an event names the camera
    or object it is computed from. Shared pointers become ids: two materials
    are the same material exactly when their ids are equal. */
module RenderPass {
  import opened Wrappers
  import opened RenderLayer

  type ObjectId = nat
  type MeshId = nat
  type MaterialId = nat
  type CameraId = nat

  /** The texture slots reserved for the skybox cubemap and the colour-correction
      lookup table. */
  const EnvironmentSlot: nat := 15
  const ColorLutSlot: nat := 14

  /** A render component: the game object it belongs to, its mesh and its
      material, either of which may be null. */
  datatype Renderable = Renderable(gameObject: ObjectId, mesh: Option<MeshId>, material: Option<MaterialId>)

  /** What the pass reads from the current scene. */
  datatype Scene = Scene(
    mainCamera: CameraId,
    hasSkybox: bool,
    hasColorLut: bool,
    defaultMaterial: Option<MaterialId>,
    renderables: seq<Renderable>)

  /** The readings of the frame clock. */
  datatype Clock = Clock(timeSinceSceneLoad: real, deltaTime: real)

  /** The frame-level uniform block; projection, view, view-projection and camera
      position are all functions of the camera. */
  datatype FrameData = FrameData(camera: CameraId, time: real, deltaTime: real, renderFlags: RenderFlags)

  datatype Event =
    | BeginTarget(clearColor: Vec4)                     // viewport, bind primary framebuffer, clear
    | BindTexture(slot: nat)                            // a global texture bound to a reserved slot
    | PreRender                                         // the scene's pre-render hook
    | BindUniformSlots                                  // both uniform buffers bound to their binding points
    | DrawPhysicsDebug
    | UpdateFrameUniforms(frame: FrameData)
    | BindMaterial(material: MaterialId)                // the material's shader bound and the material applied
    | UpdateInstanceUniforms(gameObject: ObjectId, camera: CameraId)
    | DrawMesh(mesh: MeshId)
    | DrawSkybox
    | UnbindVertexArray

  /** The result of one frame: its trace and the scene with the renderables as
      the pass left them. */
  datatype Frame = Frame(events: seq<Event>, scene: Scene)

  /** The state of the draw loop after some renderables: the events so far, the
      renderables as updated, and the material bound last (`currentMat`). */
  datatype Pass = Pass(events: seq<Event>, renderables: seq<Renderable>, bound: Option<MaterialId>)

  datatype Step = Step(events: seq<Event>, renderable: Renderable, bound: Option<MaterialId>)

  // ---------------------------------------------------------------------------
  // Reference definitions: which renderables are drawn, and with what
  // ---------------------------------------------------------------------------

  /** The material a renderable is drawn with: its own, else the scene default. */
  function ResolvedMaterial(r: Renderable, defaultMaterial: Option<MaterialId>): Option<MaterialId>
  {
    if r.material.Some? then r.material else defaultMaterial
  }

  /** A renderable is drawn when it has a mesh and a material can be resolved. */
  predicate Eligible(r: Renderable, defaultMaterial: Option<MaterialId>)
  {
    r.mesh.Some? && ResolvedMaterial(r, defaultMaterial).Some?
  }

  /** The renderable after the pass: only one with a mesh and no material takes
      the default material (which may itself be null). */
  function WrittenBack(r: Renderable, defaultMaterial: Option<MaterialId>): Renderable
  {
    if r.mesh.Some? && r.material.None? then r.(material := defaultMaterial) else r
  }

  function EligibleMeshes(rs: seq<Renderable>, d: Option<MaterialId>): seq<MeshId>
  {
    if rs == [] then []
    else (if Eligible(rs[0], d) then [rs[0].mesh.value] else []) + EligibleMeshes(rs[1..], d)
  }

  function EligibleObjects(rs: seq<Renderable>, d: Option<MaterialId>): seq<ObjectId>
  {
    if rs == [] then []
    else (if Eligible(rs[0], d) then [rs[0].gameObject] else []) + EligibleObjects(rs[1..], d)
  }

  function EligibleMaterials(rs: seq<Renderable>, d: Option<MaterialId>): seq<MaterialId>
  {
    if rs == [] then []
    else (if Eligible(rs[0], d) then [ResolvedMaterial(rs[0], d).value] else []) + EligibleMaterials(rs[1..], d)
  }

  /** `ms` with every element equal to its predecessor dropped; the predecessor
      of the first element is `last`. */
  function Dedup(ms: seq<MaterialId>, last: Option<MaterialId>): seq<MaterialId>
  {
    if ms == [] then []
    else (if Some(ms[0]) != last then [ms[0]] else []) + Dedup(ms[1..], Some(ms[0]))
  }

  // Projections of a trace onto one kind of event.

  function Draws(t: seq<Event>): seq<MeshId>
  {
    if t == [] then [] else (if t[0].DrawMesh? then [t[0].mesh] else []) + Draws(t[1..])
  }

  function InstanceUpdates(t: seq<Event>): seq<ObjectId>
  {
    if t == [] then [] else (if t[0].UpdateInstanceUniforms? then [t[0].gameObject] else []) + InstanceUpdates(t[1..])
  }

  function Binds(t: seq<Event>): seq<MaterialId>
  {
    if t == [] then [] else (if t[0].BindMaterial? then [t[0].material] else []) + Binds(t[1..])
  }

  /** The material bound after event `e`, given the one bound before it. */
  function Rebind(e: Event, bound: Option<MaterialId>): Option<MaterialId>
  {
    if e.BindMaterial? then Some(e.material) else bound
  }

  /** The material bound once all of `t` has run, starting from `bound`. */
  function BoundAfter(t: seq<Event>, bound: Option<MaterialId>): Option<MaterialId>
  {
    if t == [] then bound else BoundAfter(t[1..], Rebind(t[0], bound))
  }

  /** For each draw of `t`, in order, the material bound when it is issued: the
      last one bound before it, or `bound` when there is no bind before it. */
  function DrawnWith(t: seq<Event>, bound: Option<MaterialId>): seq<Option<MaterialId>>
  {
    if t == [] then [] else (if t[0].DrawMesh? then [bound] else []) + DrawnWith(t[1..], Rebind(t[0], bound))
  }

  /** `ms` with every element present. */
  function Somes(ms: seq<MaterialId>): (r: seq<Option<MaterialId>>)
    ensures |r| == |ms|
    ensures forall k :: 0 <= k < |ms| ==> r[k] == Some(ms[k])
  {
    if ms == [] then [] else [Some(ms[0])] + Somes(ms[1..])
  }

  /** Every draw is immediately preceded by an instance-uniform update, and every
      instance-uniform update is immediately followed by a draw. */
  predicate InstanceUpdatePrecedesEachDraw(t: seq<Event>)
  {
    && (forall i :: 0 <= i < |t| && t[i].DrawMesh? ==> 0 < i && t[i - 1].UpdateInstanceUniforms?)
    && (forall i :: 0 <= i < |t| && t[i].UpdateInstanceUniforms? ==> i + 1 < |t| && t[i + 1].DrawMesh?)
  }

  /** Every instance-uniform update of `t` is computed from `camera`: the
      view-projection the pass caches once per frame. */
  predicate InstanceUpdatesUse(t: seq<Event>, camera: CameraId)
  {
    forall e :: e in t && e.UpdateInstanceUniforms? ==> e.camera == camera
  }

  /** The only events the draw loop itself issues. */
  predicate LoopEvent(e: Event)
  {
    e.BindMaterial? || e.UpdateInstanceUniforms? || e.DrawMesh?
  }

  // ---------------------------------------------------------------------------
  // The pass
  // ---------------------------------------------------------------------------

  /** The body of the per-renderable callback, given the material bound so far.
      A skipped renderable issues nothing and leaves the binding alone; a drawn
      one leaves its resolved material bound. */
  function DrawRenderable(r: Renderable, d: Option<MaterialId>, camera: CameraId, bound: Option<MaterialId>): (s: Step)
    ensures s.renderable == WrittenBack(r, d)
    ensures s.bound == (if Eligible(r, d) then ResolvedMaterial(r, d) else bound)
    ensures !Eligible(r, d) ==> s.events == []
  {
    if r.mesh.None? then Step([], r, bound)
    else
      var r' := if r.material.None? && d.Some? then r.(material := d) else r;
      if r'.material.None? then Step([], r, bound)
      else
        var m := r'.material.value;
        var bind := if Some(m) != bound then [BindMaterial(m)] else [];
        Step(bind + [UpdateInstanceUniforms(r.gameObject, camera), DrawMesh(r.mesh.value)], r', Some(m))
  }

  /** What one renderable's events contain: one draw of its mesh and one
      instance update for its game object exactly when it is drawn, a bind
      exactly when it is drawn with a material other than the bound one, the
      bind first, the instance update (computed from `camera`) right before the
      draw, and nothing else.
      The draw is issued with the renderable's resolved material bound, and
      that material is still bound afterwards. */
  lemma DrawRenderableEvents(r: Renderable, d: Option<MaterialId>, camera: CameraId, bound: Option<MaterialId>)
    ensures var s := DrawRenderable(r, d, camera, bound);
      && Draws(s.events) == (if Eligible(r, d) then [r.mesh.value] else [])
      && InstanceUpdates(s.events) == (if Eligible(r, d) then [r.gameObject] else [])
      && Binds(s.events) == (if Eligible(r, d) && s.bound != bound then [s.bound.value] else [])
      && (Binds(s.events) != [] ==> s.events[0] == BindMaterial(s.bound.value))
      && InstanceUpdatePrecedesEachDraw(s.events)
      && (forall e :: e in s.events ==> LoopEvent(e))
      && InstanceUpdatesUse(s.events, camera)
      && DrawnWith(s.events, bound) == (if Eligible(r, d) then [ResolvedMaterial(r, d)] else [])
      && BoundAfter(s.events, bound) == s.bound
  {
    if Eligible(r, d) {
      var m := ResolvedMaterial(r, d).value;
      var bind := if Some(m) != bound then [BindMaterial(m)] else [];
      assert DrawRenderable(r, d, camera, bound).events == bind + [UpdateInstanceUniforms(r.gameObject, camera), DrawMesh(r.mesh.value)];
      DrawnEvents(bind, m, r.gameObject, camera, r.mesh.value);
      DrawnBinding(bind, m, r.gameObject, camera, r.mesh.value, bound);
    }
  }

  /** The events of a drawn renderable: an optional bind, the instance update,
      the draw. */
  lemma DrawnEvents(bind: seq<Event>, m: MaterialId, o: ObjectId, camera: CameraId, mesh: MeshId)
    requires bind == [] || bind == [BindMaterial(m)]
    ensures var t := bind + [UpdateInstanceUniforms(o, camera), DrawMesh(mesh)];
      && Draws(t) == [mesh]
      && InstanceUpdates(t) == [o]
      && Binds(t) == (if bind == [] then [] else [m])
      && InstanceUpdatePrecedesEachDraw(t)
      && (forall e :: e in t ==> LoopEvent(e))
      && InstanceUpdatesUse(t, camera)
  {
    var tail := [UpdateInstanceUniforms(o, camera), DrawMesh(mesh)];
    ProjectPair(UpdateInstanceUniforms(o, camera), DrawMesh(mesh));
    ProjectSingleton(BindMaterial(m));
    DrawsOfAppend(bind, tail);
    InstanceUpdatesOfAppend(bind, tail);
    BindsOfAppend(bind, tail);
  }

  /** A drawn renderable's events draw with `m` bound and leave it bound, whether
      they bind it or find it bound already. */
  lemma DrawnBinding(bind: seq<Event>, m: MaterialId, o: ObjectId, camera: CameraId, mesh: MeshId, bound: Option<MaterialId>)
    requires bind == [BindMaterial(m)] || (bind == [] && bound == Some(m))
    ensures var t := bind + [UpdateInstanceUniforms(o, camera), DrawMesh(mesh)];
      DrawnWith(t, bound) == [Some(m)] && BoundAfter(t, bound) == Some(m)
  {
    var u, dm := UpdateInstanceUniforms(o, camera), DrawMesh(mesh);
    assert [u, dm][1..] == [dm] && [dm][1..] == [];
    assert DrawnWith([dm], Some(m)) == [Some(m)] + DrawnWith([], Some(m));
    assert DrawnWith([u, dm], Some(m)) == DrawnWith([dm], Some(m));
    assert BoundAfter([dm], Some(m)) == BoundAfter([], Some(m));
    assert BoundAfter([u, dm], Some(m)) == BoundAfter([dm], Some(m));
    if bind != [] {
      var t := bind + [u, dm];
      assert t[0] == BindMaterial(m) && t[1..] == [u, dm];
    } else {
      assert bind + [u, dm] == [u, dm];
    }
  }

  /** The loop over the scene's renderables, in iteration order. */
  function DrawLoop(rs: seq<Renderable>, d: Option<MaterialId>, camera: CameraId, bound: Option<MaterialId>): (p: Pass)
    ensures |p.renderables| == |rs|
    decreases |rs|
  {
    if rs == [] then Pass([], [], bound)
    else
      var s := DrawRenderable(rs[0], d, camera, bound);
      var rest := DrawLoop(rs[1..], d, camera, s.bound);
      Pass(s.events + rest.events, [s.renderable] + rest.renderables, rest.bound)
  }

  /** The loop over a concatenation is the loop over the first part followed by
      the loop over the second, started from the material the first left bound:
      `currentMat` is the only state carried from one renderable to the next. */
  lemma {:induction false} DrawLoopAppend(a: seq<Renderable>, b: seq<Renderable>, d: Option<MaterialId>, camera: CameraId, bound: Option<MaterialId>)
    ensures var p := DrawLoop(a, d, camera, bound);
      var q := DrawLoop(b, d, camera, p.bound);
      DrawLoop(a + b, d, camera, bound) == Pass(p.events + q.events, p.renderables + q.renderables, q.bound)
    decreases |a|
  {
    if a == [] {
      assert a + b == b;
    } else {
      var s := DrawRenderable(a[0], d, camera, bound);
      assert (a + b)[0] == a[0];
      assert (a + b)[1..] == a[1..] + b;
      DrawLoopAppend(a[1..], b, d, camera, s.bound);
      var p := DrawLoop(a[1..], d, camera, s.bound);
      var q := DrawLoop(b, d, camera, p.bound);
      assert s.events + (p.events + q.events) == (s.events + p.events) + q.events;
      assert [s.renderable] + (p.renderables + q.renderables) == ([s.renderable] + p.renderables) + q.renderables;
    }
  }

  /** The per-renderable callback written as the source writes it, updating
      `currentMat` in place; it agrees with `DrawRenderable`. */
  method DrawOne(renderable: Renderable, d: Option<MaterialId>, camera: CameraId, currentMat: Option<MaterialId>)
    returns (events: seq<Event>, r: Renderable, nowBound: Option<MaterialId>)
    ensures Step(events, r, nowBound) == DrawRenderable(renderable, d, camera, currentMat)
  {
    r, nowBound, events := renderable, currentMat, [];
    if r.mesh.None? {
      return;
    }
    if r.material.None? {
      if d.Some? {
        r := r.(material := d);
      } else {
        return;
      }
    }
    if r.material != nowBound {
      nowBound := r.material;
      events := [BindMaterial(r.material.value)];
    }
    events := events + [UpdateInstanceUniforms(r.gameObject, camera), DrawMesh(r.mesh.value)];
  }

  lemma DrawLoopSnoc(rs: seq<Renderable>, i: nat, d: Option<MaterialId>, camera: CameraId)
    requires i < |rs|
    ensures var p := DrawLoop(rs[..i], d, camera, None);
      var s := DrawRenderable(rs[i], d, camera, p.bound);
      DrawLoop(rs[..i + 1], d, camera, None) == Pass(p.events + s.events, p.renderables + [s.renderable], s.bound)
  {
    var prefix, r := rs[..i], rs[i];
    assert rs[..i + 1] == prefix + [r];
    DrawLoopPush(prefix, r, d, camera, None);
  }

  lemma DrawLoopPush(a: seq<Renderable>, r: Renderable, d: Option<MaterialId>, camera: CameraId, bound: Option<MaterialId>)
    ensures var p := DrawLoop(a, d, camera, bound);
      var s := DrawRenderable(r, d, camera, p.bound);
      DrawLoop(a + [r], d, camera, bound) == Pass(p.events + s.events, p.renderables + [s.renderable], s.bound)
  {
    var p := DrawLoop(a, d, camera, bound);
    DrawLoopAppend(a, [r], d, camera, bound);
    DrawLoopSingleton(r, d, camera, p.bound);
  }

  lemma DrawLoopSingleton(r: Renderable, d: Option<MaterialId>, camera: CameraId, bound: Option<MaterialId>)
    ensures var s := DrawRenderable(r, d, camera, bound);
      DrawLoop([r], d, camera, bound) == Pass(s.events, [s.renderable], s.bound)
  {
  }

  /** The draw loop as the source's iteration over the render components, with
      `currentMat` a local that starts null; it computes the same trace and
      renderables as the fold. */
  method RunDrawLoop(rs: seq<Renderable>, d: Option<MaterialId>, camera: CameraId) returns (events: seq<Event>, updated: seq<Renderable>)
    ensures events == DrawLoop(rs, d, camera, None).events
    ensures updated == DrawLoop(rs, d, camera, None).renderables
  {
    var currentMat: Option<MaterialId> := None;
    events, updated := [], [];
    var i := 0;
    while i < |rs|
      invariant 0 <= i <= |rs|
      invariant DrawLoop(rs[..i], d, camera, None) == Pass(events, updated, currentMat)
    {
      var step, r;
      step, r, currentMat := DrawOne(rs[i], d, camera, currentMat);
      DrawLoopSnoc(rs, i, d, camera);
      events, updated := events + step, updated + [r];
      i := i + 1;
    }
    assert rs[..|rs|] == rs;
  }

  /** Everything the pass issues before the frame uniforms are uploaded. */
  function Prologue(layer: LayerState, scene: Scene): seq<Event>
  {
    [BeginTarget(layer.clearColor)]
    + (if scene.hasSkybox then [BindTexture(EnvironmentSlot)] else [])
    + (if scene.hasColorLut then [BindTexture(ColorLutSlot)] else [])
    + [PreRender, BindUniformSlots, DrawPhysicsDebug]
  }

  function FrameUniformsOf(layer: LayerState, scene: Scene, clock: Clock): FrameData
  {
    FrameData(scene.mainCamera, clock.timeSinceSceneLoad, clock.deltaTime, layer.renderFlags)
  }

  /** One frame: prologue, frame uniforms, the draw loop starting with no
      material bound, then the skybox. The scene comes back with every renderable
      as `WrittenBack` says and nothing else in it changed. */
  function OnRender(layer: LayerState, scene: Scene, clock: Clock): (f: Frame)
    ensures f.events == FrameHead(layer, scene, clock)
      + DrawLoop(scene.renderables, scene.defaultMaterial, scene.mainCamera, None).events + FrameTail
    ensures f.scene == scene.(renderables := f.scene.renderables)
    ensures |f.scene.renderables| == |scene.renderables|
    ensures forall i :: 0 <= i < |scene.renderables| ==>
      f.scene.renderables[i] == WrittenBack(scene.renderables[i], scene.defaultMaterial)
  {
    DrawLoopWritesBackDefault(scene.renderables, scene.defaultMaterial, scene.mainCamera, None);
    var loop := DrawLoop(scene.renderables, scene.defaultMaterial, scene.mainCamera, None);
    Frame(
      Prologue(layer, scene) + [UpdateFrameUniforms(FrameUniformsOf(layer, scene, clock))]
        + loop.events + [DrawSkybox, UnbindVertexArray],
      scene.(renderables := loop.renderables))
  }

  // ---------------------------------------------------------------------------
  // Projections distribute over concatenation
  // ---------------------------------------------------------------------------

  lemma {:induction false} DrawsOfAppend(a: seq<Event>, b: seq<Event>)
    ensures Draws(a + b) == Draws(a) + Draws(b)
    decreases |a|
  {
    if a != [] {
      assert (a + b)[1..] == a[1..] + b;
      DrawsOfAppend(a[1..], b);
    } else {
      assert a + b == b;
    }
  }

  lemma {:induction false} InstanceUpdatesOfAppend(a: seq<Event>, b: seq<Event>)
    ensures InstanceUpdates(a + b) == InstanceUpdates(a) + InstanceUpdates(b)
    decreases |a|
  {
    if a != [] {
      assert (a + b)[1..] == a[1..] + b;
      InstanceUpdatesOfAppend(a[1..], b);
    } else {
      assert a + b == b;
    }
  }

  lemma {:induction false} BindsOfAppend(a: seq<Event>, b: seq<Event>)
    ensures Binds(a + b) == Binds(a) + Binds(b)
    decreases |a|
  {
    if a != [] {
      assert (a + b)[1..] == a[1..] + b;
      BindsOfAppend(a[1..], b);
    } else {
      assert a + b == b;
    }
  }

  lemma ProjectSingleton(e: Event)
    ensures Draws([e]) == (if e.DrawMesh? then [e.mesh] else [])
    ensures InstanceUpdates([e]) == (if e.UpdateInstanceUniforms? then [e.gameObject] else [])
    ensures Binds([e]) == (if e.BindMaterial? then [e.material] else [])
  {
  }

  lemma ProjectPair(e1: Event, e2: Event)
    ensures Draws([e1, e2]) == Draws([e1]) + Draws([e2])
    ensures InstanceUpdates([e1, e2]) == InstanceUpdates([e1]) + InstanceUpdates([e2])
    ensures Binds([e1, e2]) == Binds([e1]) + Binds([e2])
  {
  }

  lemma PairingOfAppend(a: seq<Event>, b: seq<Event>)
    requires InstanceUpdatePrecedesEachDraw(a) && InstanceUpdatePrecedesEachDraw(b)
    ensures InstanceUpdatePrecedesEachDraw(a + b)
  {
  }

  // ---------------------------------------------------------------------------
  // Properties of the draw loop
  // ---------------------------------------------------------------------------

  /** The draws are one per eligible renderable, in scene order, each right after
      the instance-uniform update for that renderable's game object, and every
      instance update uses the loop's camera; the loop issues nothing but binds,
      instance updates and draws. */
  lemma {:induction false} DrawLoopDrawsEligibleInOrder(rs: seq<Renderable>, d: Option<MaterialId>, camera: CameraId, bound: Option<MaterialId>)
    ensures var p := DrawLoop(rs, d, camera, bound);
      && Draws(p.events) == EligibleMeshes(rs, d)
      && InstanceUpdates(p.events) == EligibleObjects(rs, d)
      && InstanceUpdatePrecedesEachDraw(p.events)
      && (forall e :: e in p.events ==> LoopEvent(e))
      && InstanceUpdatesUse(p.events, camera)
    decreases |rs|
  {
    if rs != [] {
      var s := DrawRenderable(rs[0], d, camera, bound);
      var rest := DrawLoop(rs[1..], d, camera, s.bound);
      DrawLoopDrawsEligibleInOrder(rs[1..], d, camera, s.bound);
      DrawRenderableEvents(rs[0], d, camera, bound);
      DrawsOfAppend(s.events, rest.events);
      InstanceUpdatesOfAppend(s.events, rest.events);
      PairingOfAppend(s.events, rest.events);
    }
  }

  /** The materials bound are the resolved materials of the eligible renderables
      with consecutive repeats dropped: a renderable binds exactly when its
      material differs from that of the last renderable drawn (or from `bound`
      before any), and skipped renderables do not disturb it. */
  lemma {:induction false} DrawLoopBindsOnMaterialChange(rs: seq<Renderable>, d: Option<MaterialId>, camera: CameraId, bound: Option<MaterialId>)
    ensures Binds(DrawLoop(rs, d, camera, bound).events) == Dedup(EligibleMaterials(rs, d), bound)
    decreases |rs|
  {
    if rs != [] {
      var s := DrawRenderable(rs[0], d, camera, bound);
      var rest := DrawLoop(rs[1..], d, camera, s.bound);
      assert DrawLoop(rs, d, camera, bound).events == s.events + rest.events;
      DrawLoopBindsOnMaterialChange(rs[1..], d, camera, s.bound);
      DrawRenderableEvents(rs[0], d, camera, bound);
      BindsOfAppend(s.events, rest.events);
      var ms := EligibleMaterials(rs, d);
      var tail := EligibleMaterials(rs[1..], d);
      if Eligible(rs[0], d) {
        var m := ResolvedMaterial(rs[0], d).value;
        assert ms == [m] + tail;
        assert ms[0] == m && ms[1..] == tail;
        assert s.bound == Some(m);
        assert Dedup(ms, bound) == (if Some(m) != bound then [m] else []) + Dedup(tail, Some(m));
      } else {
        assert ms == tail;
        assert s.bound == bound && Binds(s.events) == [];
      }
    }
  }

  /** After the loop the bound material is that of the last renderable drawn,
      or what was bound before the loop when nothing was drawn. */
  lemma {:induction false} DrawLoopLeavesLastMaterialBound(rs: seq<Renderable>, d: Option<MaterialId>, camera: CameraId, bound: Option<MaterialId>)
    ensures var ms := EligibleMaterials(rs, d);
      DrawLoop(rs, d, camera, bound).bound == (if ms == [] then bound else Some(ms[|ms| - 1]))
    decreases |rs|
  {
    if rs != [] {
      var s := DrawRenderable(rs[0], d, camera, bound);
      assert DrawLoop(rs, d, camera, bound).bound == DrawLoop(rs[1..], d, camera, s.bound).bound;
      DrawLoopLeavesLastMaterialBound(rs[1..], d, camera, s.bound);
      var ms := EligibleMaterials(rs, d);
      var tail := EligibleMaterials(rs[1..], d);
      if Eligible(rs[0], d) {
        assert ms == [ResolvedMaterial(rs[0], d).value] + tail;
      } else {
        assert ms == tail;
      }
    }
  }

  /** Each draw of the loop is issued with the resolved material of the
      renderable it draws bound, and the binding the trace leaves is the loop's
      `currentMat`. */
  lemma {:induction false} DrawLoopDrawsWithMaterialBound(rs: seq<Renderable>, d: Option<MaterialId>, camera: CameraId, bound: Option<MaterialId>)
    ensures var p := DrawLoop(rs, d, camera, bound);
      && DrawnWith(p.events, bound) == Somes(EligibleMaterials(rs, d))
      && BoundAfter(p.events, bound) == p.bound
    decreases |rs|
  {
    if rs != [] {
      var s := DrawRenderable(rs[0], d, camera, bound);
      var rest := DrawLoop(rs[1..], d, camera, s.bound);
      assert DrawLoop(rs, d, camera, bound).events == s.events + rest.events;
      DrawLoopDrawsWithMaterialBound(rs[1..], d, camera, s.bound);
      DrawRenderableEvents(rs[0], d, camera, bound);
      DrawnWithOfAppend(s.events, rest.events, bound);
      var ms := EligibleMaterials(rs, d);
      var tail := EligibleMaterials(rs[1..], d);
      if Eligible(rs[0], d) {
        assert ms == [ResolvedMaterial(rs[0], d).value] + tail;
        assert ms[1..] == tail;
      } else {
        assert ms == tail;
      }
    }
  }

  /** Each renderable comes out of the pass as `WrittenBack` says: one without a
      mesh is untouched, one with a mesh and no material takes the default. */
  lemma {:induction false} DrawLoopWritesBackDefault(rs: seq<Renderable>, d: Option<MaterialId>, camera: CameraId, bound: Option<MaterialId>)
    ensures var p := DrawLoop(rs, d, camera, bound);
      forall i :: 0 <= i < |rs| ==> p.renderables[i] == WrittenBack(rs[i], d)
    decreases |rs|
  {
    if rs != [] {
      var s := DrawRenderable(rs[0], d, camera, bound);
      DrawLoopWritesBackDefault(rs[1..], d, camera, s.bound);
      var p := DrawLoop(rs, d, camera, bound);
      forall i | 0 <= i < |rs|
        ensures p.renderables[i] == WrittenBack(rs[i], d)
      {
        if i > 0 {
          assert rs[i] == rs[1..][i - 1];
        }
      }
    }
  }

  /** A renderable without a mesh contributes no event, leaves the bound material
      and its own material as they were. One with a mesh but no material is
      drawn with the default when there is one and skipped otherwise. */
  lemma SkippedAndDefaultedRenderables(r: Renderable, d: Option<MaterialId>, camera: CameraId, bound: Option<MaterialId>)
    ensures r.mesh.None? ==> DrawRenderable(r, d, camera, bound) == Step([], r, bound)
    ensures r.mesh.Some? && r.material.None? && d.None? ==> DrawRenderable(r, d, camera, bound) == Step([], r, bound)
    ensures r.mesh.Some? && r.material.None? && d.Some? ==>
      var s := DrawRenderable(r, d, camera, bound);
      && s.renderable.material == d
      && Draws(s.events) == [r.mesh.value]
      && s.bound == d
  {
    DrawRenderableEvents(r, d, camera, bound);
  }

  // ---------------------------------------------------------------------------
  // Properties of the collapse of repeats
  // ---------------------------------------------------------------------------

  /** The collapse never yields two equal neighbours, keeps the first element
      when nothing was bound before, and keeps only elements of its input. */
  lemma {:induction false} DedupProperties(ms: seq<MaterialId>, last: Option<MaterialId>)
    ensures var r := Dedup(ms, last);
      && (forall i :: 0 < i < |r| ==> r[i - 1] != r[i])
      && (r != [] ==> Some(r[0]) != last)
      && (ms != [] && last.None? ==> r != [] && r[0] == ms[0])
      && (forall m :: m in r ==> m in ms)
      && |r| <= |ms|
    decreases |ms|
  {
    if ms != [] {
      var r := Dedup(ms, last);
      var tail := Dedup(ms[1..], Some(ms[0]));
      DedupProperties(ms[1..], Some(ms[0]));
      var head := if Some(ms[0]) != last then [ms[0]] else [];
      assert r == head + tail;
      forall i | 0 < i < |r|
        ensures r[i - 1] != r[i]
      {
        if head != [] && i == 1 {
          assert r[0] == ms[0] && r[1] == tail[0];
        }
      }
    }
  }

  // ---------------------------------------------------------------------------
  // Properties of the whole frame
  // ---------------------------------------------------------------------------

  /** The events before the draw loop: the prologue and the frame-uniform upload. */
  function FrameHead(layer: LayerState, scene: Scene, clock: Clock): seq<Event>
  {
    Prologue(layer, scene) + [UpdateFrameUniforms(FrameUniformsOf(layer, scene, clock))]
  }

  const FrameTail: seq<Event> := [DrawSkybox, UnbindVertexArray]

  /** The events around the draw loop hold no bind, instance update or draw. */
  lemma FrameHeadAndTailOutsideLoop(layer: LayerState, scene: Scene, clock: Clock)
    ensures forall e :: e in FrameHead(layer, scene, clock) ==> !LoopEvent(e)
    ensures forall e :: e in FrameTail ==> !LoopEvent(e)
  {
  }

  /** Over the whole frame, the draws are one per eligible renderable in scene
      order, each right after the instance update for its game object, which is
      computed from the scene's main camera; the
      first material is bound when the first renderable is drawn, after which a
      bind occurs exactly on a change of material. */
  lemma OnRenderDrawsAndBinds(layer: LayerState, scene: Scene, clock: Clock)
    ensures var t := OnRender(layer, scene, clock).events;
      && Draws(t) == EligibleMeshes(scene.renderables, scene.defaultMaterial)
      && InstanceUpdates(t) == EligibleObjects(scene.renderables, scene.defaultMaterial)
      && Binds(t) == Dedup(EligibleMaterials(scene.renderables, scene.defaultMaterial), None)
      && InstanceUpdatePrecedesEachDraw(t)
      && InstanceUpdatesUse(t, scene.mainCamera)
  {
    var rs := scene.renderables;
    var d := scene.defaultMaterial;
    var loop := DrawLoop(rs, d, scene.mainCamera, None).events;
    var pre := FrameHead(layer, scene, clock);
    FrameHeadAndTailOutsideLoop(layer, scene, clock);
    DrawLoopDrawsEligibleInOrder(rs, d, scene.mainCamera, None);
    DrawLoopBindsOnMaterialChange(rs, d, scene.mainCamera, None);
    NoLoopEventsProjectEmpty(pre);
    NoLoopEventsProjectEmpty(FrameTail);
    NoLoopEventsPaired(pre);
    NoLoopEventsPaired(FrameTail);
    DrawsOfAppend(pre, loop);
    DrawsOfAppend(pre + loop, FrameTail);
    InstanceUpdatesOfAppend(pre, loop);
    InstanceUpdatesOfAppend(pre + loop, FrameTail);
    BindsOfAppend(pre, loop);
    BindsOfAppend(pre + loop, FrameTail);
    PairingOfAppend(pre, loop);
    PairingOfAppend(pre + loop, FrameTail);
  }

  /** The frame clears with the layer's clear colour; the frame uniforms, carrying
      the scene's camera, the clock's readings and the layer's render flags, are
      uploaded exactly once and before every draw; the skybox is drawn after
      every draw. */
  lemma OnRenderFrameOrder(layer: LayerState, scene: Scene, clock: Clock)
    ensures var t := OnRender(layer, scene, clock).events;
      var k := |Prologue(layer, scene)|;
      && t[0] == BeginTarget(GetClearColor(layer))
      && k < |t| && t[k] == UpdateFrameUniforms(FrameData(scene.mainCamera, clock.timeSinceSceneLoad, clock.deltaTime, GetRenderFlags(layer)))
      && (forall i :: 0 <= i < |t| && t[i].UpdateFrameUniforms? ==> i == k)
      && (forall i :: 0 <= i < |t| && t[i].DrawMesh? ==> k < i < |t| - 2)
      && t[|t| - 2] == DrawSkybox
  {
    var loop := DrawLoop(scene.renderables, scene.defaultMaterial, scene.mainCamera, None).events;
    var pro := Prologue(layer, scene);
    FrameHeadAndTailOutsideLoop(layer, scene, clock);
    DrawLoopDrawsEligibleInOrder(scene.renderables, scene.defaultMaterial, scene.mainCamera, None);
    assert FrameHead(layer, scene, clock) == pro + [UpdateFrameUniforms(FrameUniformsOf(layer, scene, clock))];
    assert forall e :: e in pro ==> !e.UpdateFrameUniforms? && !e.DrawMesh?;
    FrameOrderOf(pro, UpdateFrameUniforms(FrameUniformsOf(layer, scene, clock)), loop);
  }

  lemma FrameOrderOf(pro: seq<Event>, u: Event, loop: seq<Event>)
    requires forall e :: e in pro ==> !e.UpdateFrameUniforms? && !e.DrawMesh?
    requires forall e :: e in loop ==> LoopEvent(e)
    requires u.UpdateFrameUniforms?
    ensures var t := pro + [u] + loop + FrameTail;
      && t[|pro|] == u
      && (forall i :: 0 <= i < |t| && t[i].UpdateFrameUniforms? ==> i == |pro|)
      && (forall i :: 0 <= i < |t| && t[i].DrawMesh? ==> |pro| < i < |t| - 2)
      && t[|t| - 2] == DrawSkybox
  {
    var t := pro + [u] + loop + FrameTail;
    forall i | |pro| + 1 + |loop| <= i < |t|
      ensures t[i] == DrawSkybox || t[i] == UnbindVertexArray
    {
      assert t[i] == FrameTail[i - |pro| - 1 - |loop|];
    }
    forall i | |pro| < i < |pro| + 1 + |loop|
      ensures LoopEvent(t[i])
    {
      assert t[i] == loop[i - |pro| - 1];
    }
    forall i | 0 <= i < |pro|
      ensures t[i] == pro[i]
    {
    }
  }

  lemma {:induction false} NoLoopEventsProjectEmpty(t: seq<Event>)
    requires forall e :: e in t ==> !LoopEvent(e)
    ensures Draws(t) == [] && InstanceUpdates(t) == [] && Binds(t) == []
    decreases |t|
  {
    if t != [] {
      assert t[0] in t;
      assert forall e :: e in t[1..] ==> e in t;
      NoLoopEventsProjectEmpty(t[1..]);
    }
  }

  lemma NoLoopEventsPaired(t: seq<Event>)
    requires forall e :: e in t ==> !LoopEvent(e)
    ensures InstanceUpdatePrecedesEachDraw(t)
  {
    forall i | 0 <= i < |t|
      ensures !t[i].DrawMesh? && !t[i].UpdateInstanceUniforms?
    {
      assert t[i] in t;
    }
  }

  /** Over the whole frame, each draw is issued with the resolved material of
      the renderable it draws bound: the k-th draw, of the k-th eligible mesh,
      comes after the k-th eligible material was bound, with no other bind in
      between. */
  lemma OnRenderDrawsWithMaterialBound(layer: LayerState, scene: Scene, clock: Clock)
    ensures var t := OnRender(layer, scene, clock).events;
      var ms := EligibleMaterials(scene.renderables, scene.defaultMaterial);
      && Draws(t) == EligibleMeshes(scene.renderables, scene.defaultMaterial)
      && |DrawnWith(t, None)| == |Draws(t)| == |ms|
      && forall k :: 0 <= k < |ms| ==> DrawnWith(t, None)[k] == Some(ms[k])
  {
    var rs, d := scene.renderables, scene.defaultMaterial;
    var loop := DrawLoop(rs, d, scene.mainCamera, None).events;
    var t := OnRender(layer, scene, clock).events;
    FrameHeadAndTailOutsideLoop(layer, scene, clock);
    OnRenderDrawsAndBinds(layer, scene, clock);
    DrawLoopDrawsWithMaterialBound(rs, d, scene.mainCamera, None);
    DrawnWithAroundLoop(FrameHead(layer, scene, clock), loop, FrameTail);
    DrawnWithCountsDraws(t, None);
  }

  /** Events around the loop that neither bind nor draw leave the bindings the
      loop's draws are issued with as they are. */
  lemma DrawnWithAroundLoop(pre: seq<Event>, loop: seq<Event>, post: seq<Event>)
    requires forall e :: e in pre ==> !LoopEvent(e)
    requires forall e :: e in post ==> !LoopEvent(e)
    ensures DrawnWith(pre + loop + post, None) == DrawnWith(loop, None)
  {
    NoLoopEventsKeepBinding(pre, None);
    NoLoopEventsKeepBinding(post, BoundAfter(pre + loop, None));
    DrawnWithOfAppend(pre, loop, None);
    DrawnWithOfAppend(pre + loop, post, None);
  }

  /** Events that are neither binds nor draws report no draw and keep the
      binding. */
  lemma {:induction false} NoLoopEventsKeepBinding(t: seq<Event>, bound: Option<MaterialId>)
    requires forall e :: e in t ==> !LoopEvent(e)
    ensures DrawnWith(t, bound) == [] && BoundAfter(t, bound) == bound
    decreases |t|
  {
    if t != [] {
      assert t[0] in t;
      assert forall e :: e in t[1..] ==> e in t;
      NoLoopEventsKeepBinding(t[1..], bound);
    }
  }

  /** The binding tracked along a concatenation carries over from the first part
      to the second. */
  lemma {:induction false} DrawnWithOfAppend(a: seq<Event>, b: seq<Event>, bound: Option<MaterialId>)
    ensures DrawnWith(a + b, bound) == DrawnWith(a, bound) + DrawnWith(b, BoundAfter(a, bound))
    ensures BoundAfter(a + b, bound) == BoundAfter(b, BoundAfter(a, bound))
    decreases |a|
  {
    if a != [] {
      assert (a + b)[0] == a[0];
      assert (a + b)[1..] == a[1..] + b;
      DrawnWithOfAppend(a[1..], b, Rebind(a[0], bound));
    } else {
      assert a + b == b;
    }
  }

  /** There is one tracked binding per draw. */
  lemma {:induction false} DrawnWithCountsDraws(t: seq<Event>, bound: Option<MaterialId>)
    ensures |DrawnWith(t, bound)| == |Draws(t)|
    decreases |t|
  {
    if t != [] {
      DrawnWithCountsDraws(t[1..], Rebind(t[0], bound));
    }
  }

  // ---------------------------------------------------------------------------
  // Scenarios
  // ---------------------------------------------------------------------------

  /** Materials [A, A, B] bind A, then B, and draw three times. */
  lemma ScenarioSharedMaterialBindsOnce(a: MaterialId, b: MaterialId, camera: CameraId)
    requires a != b
    ensures var rs := [Renderable(0, Some(0), Some(a)), Renderable(1, Some(1), Some(a)), Renderable(2, Some(2), Some(b))];
      var p := DrawLoop(rs, None, camera, None);
      Binds(p.events) == [a, b] && Draws(p.events) == [0, 1, 2]
  {
    var r0, r1, r2 := Renderable(0, Some(0), Some(a)), Renderable(1, Some(1), Some(a)), Renderable(2, Some(2), Some(b));
    var rs := [r0, r1, r2];
    DrawLoopBindsOnMaterialChange(rs, None, camera, None);
    DrawLoopDrawsEligibleInOrder(rs, None, camera, None);
    assert rs[1..] == [r1, r2] && [r1, r2][1..] == [r2] && [r2][1..] == [];
    assert EligibleMaterials([r2], None) == [b] && EligibleMeshes([r2], None) == [2];
    assert EligibleMaterials([r1, r2], None) == [a, b] && EligibleMeshes([r1, r2], None) == [1, 2];
    assert EligibleMaterials(rs, None) == [a, a, b] && EligibleMeshes(rs, None) == [0, 1, 2];
    assert [a, a, b][1..] == [a, b] && [a, b][1..] == [b] && [b][1..] == [];
    assert Dedup([b], Some(a)) == [b];
    assert Dedup([a, b], Some(a)) == [b];
  }

  /** Materials [A, (no mesh), A] bind A once: the skipped renderable does not
      reset the bound material. */
  lemma ScenarioSkipKeepsBinding(a: MaterialId, other: MaterialId, camera: CameraId)
    ensures var rs := [Renderable(0, Some(0), Some(a)), Renderable(1, None, Some(other)), Renderable(2, Some(2), Some(a))];
      var p := DrawLoop(rs, None, camera, None);
      Binds(p.events) == [a] && Draws(p.events) == [0, 2]
  {
    var r0, r1, r2 := Renderable(0, Some(0), Some(a)), Renderable(1, None, Some(other)), Renderable(2, Some(2), Some(a));
    var rs := [r0, r1, r2];
    DrawLoopBindsOnMaterialChange(rs, None, camera, None);
    DrawLoopDrawsEligibleInOrder(rs, None, camera, None);
    assert rs[1..] == [r1, r2] && [r1, r2][1..] == [r2] && [r2][1..] == [];
    assert EligibleMaterials([r2], None) == [a] && EligibleMeshes([r2], None) == [2];
    assert EligibleMaterials([r1, r2], None) == [a] && EligibleMeshes([r1, r2], None) == [2];
    assert EligibleMaterials(rs, None) == [a, a] && EligibleMeshes(rs, None) == [0, 2];
    assert [a, a][1..] == [a] && [a][1..] == [];
    assert Dedup([a], Some(a)) == [];
  }

  /** [no mesh, a mesh with no material and no scene default] issues nothing and
      leaves nothing bound. */
  lemma ScenarioNothingDrawable(m: MaterialId, camera: CameraId)
    ensures var rs := [Renderable(0, None, Some(m)), Renderable(1, Some(1), None)];
      var p := DrawLoop(rs, None, camera, None);
      p.events == [] && p.bound == None
  {
    var r0, r1 := Renderable(0, None, Some(m)), Renderable(1, Some(1), None);
    var rs := [r0, r1];
    assert rs[1..] == [r1] && [r1][1..] == [];
    assert DrawLoop([r1], None, camera, None) == Pass([], [r1], None);
  }
}
