/**
 * The layer manager of flion/src/compositor.rs. The raw `CompositorFlutterLayer`
 * pointers the engine holds as `user_data` are handles into an arena map; the
 * root visual's children, the stored layer snapshot and the effects of the
 * Windows Composition and EGL calls are fields of `Compositor`.
 */
module FlionCompositor {
  import opened Wrappers

  /** Address of a live `CompositorFlutterLayer`, handed out as `user_data`. */
  type Handle = nat
  /** A `SpriteVisual` created for one layer. */
  type VisualId = nat
  /** An EGL surface. */
  type SurfaceId = nat
  /** Address of a `FlutterLayer` the engine passes to `present_layers`. */
  type LayerAddr = nat

  /** `GL_BGRA8_EXT`, the format every backing store announces. */
  const GL_BGRA8_EXT: nat := 0x93A1

  /** A `CompositorFlutterLayer`: its visual, the size its visual and drawing
    * surface were created with, and the EGL surface open on it, if any. */
  datatype CompositorLayer = CompositorLayer(visual: VisualId, width: nat, height: nat,
                                             eglSurface: Option<SurfaceId>)

  /** The fields of `FlutterBackingStore` that `create_backing_store` fills in. */
  datatype BackingStoreType = OpenGLStore | SoftwareStore
  datatype OpenGLTargetType = TextureTarget | FramebufferTarget | SurfaceTarget
  datatype BackingStore = BackingStore(storeType: BackingStoreType, targetType: OpenGLTargetType,
                                       format: nat, userData: Handle)

  /** A `FlutterLayer`: where it lives, what it holds, and (for backing-store
    * content) the `user_data` of its backing store. */
  datatype ContentType = BackingStoreContent | PlatformViewContent
  datatype FlutterLayer = FlutterLayer(addr: LayerAddr, contentType: ContentType, store: Handle)

  /** The identities `present_layers` compares and stores. */
  function Addrs(ls: seq<FlutterLayer>): (r: seq<LayerAddr>)
    ensures |r| == |ls|
    ensures forall i :: 0 <= i < |ls| ==> r[i] == ls[i].addr
  {
    seq(|ls|, i requires 0 <= i < |ls| => ls[i].addr)
  }

  /** Every layer of the list refers to a live backing store. */
  predicate InArena(arena: map<Handle, CompositorLayer>, ls: seq<FlutterLayer>)
  {
    forall i :: 0 <= i < |ls| ==> ls[i].store in arena
  }

  /** The backing stores a layer list refers to. */
  function Stores(ls: seq<FlutterLayer>): set<Handle>
  {
    set l | l in ls :: l.store
  }

  /** The visuals of a layer list, bottom to top. */
  function Visuals(arena: map<Handle, CompositorLayer>, ls: seq<FlutterLayer>): (r: seq<VisualId>)
    requires InArena(arena, ls)
    ensures |r| == |ls|
    ensures forall i :: 0 <= i < |ls| ==> r[i] == arena[ls[i].store].visual
  {
    seq(|ls|, i requires 0 <= i < |ls| => arena[ls[i].store].visual)
  }

  /** The change test of `present_layers`: a different count, or a different
    * layer at some position (looked at only when the counts agree). */
  predicate LayerOrderChanged(prev: seq<LayerAddr>, cur: seq<FlutterLayer>)
  {
    |prev| != |cur| || DiffersBefore(prev, cur, |cur|)
  }

  /** Some position below `n` holds a different layer (counts agreeing). */
  predicate DiffersBefore(prev: seq<LayerAddr>, cur: seq<FlutterLayer>, n: nat)
    requires n <= |cur| && |prev| == |cur|
  {
    exists i :: 0 <= i < n && prev[i] != cur[i].addr
  }

  /** Looking at one more position. */
  lemma DiffersStep(prev: seq<LayerAddr>, cur: seq<FlutterLayer>, n: nat)
    requires n < |cur| && |prev| == |cur|
    ensures DiffersBefore(prev, cur, n + 1) <==> DiffersBefore(prev, cur, n) || prev[n] != cur[n].addr
  {
  }

  /** The change test holds exactly when the stored snapshot differs from the
    * new layer list. */
  lemma LayerOrderChangedIff(prev: seq<LayerAddr>, cur: seq<FlutterLayer>)
    ensures LayerOrderChanged(prev, cur) <==> prev != Addrs(cur)
  {
    if !LayerOrderChanged(prev, cur) {
      assert forall i :: 0 <= i < |prev| ==> prev[i] == Addrs(cur)[i];
    } else if |prev| == |cur| {
      var i :| 0 <= i < |cur| && prev[i] != cur[i].addr;
      assert prev[i] != Addrs(cur)[i];
    }
  }

  /** The arena and the logs after the first loop of `present_layers`. */
  datatype Closing = Closing(arena: map<Handle, CompositorLayer>, closed: seq<Handle>,
                             destroyed: seq<SurfaceId>)

  /** Closing one layer's surface, if it has one open: take the surface out
    * of the slot, end the draw (log the layer) and destroy the surface (log
    * the surface). */
  function CloseStep(c: Closing, h: Handle): (r: Closing)
    requires h in c.arena
    ensures r.arena.Keys == c.arena.Keys
    ensures r.arena[h].eglSurface.None?
    ensures |r.closed| - |c.closed| == |r.destroyed| - |c.destroyed|
  {
    match c.arena[h].eglSurface
    case None => c
    case Some(s) => Closing(c.arena[h := c.arena[h].(eglSurface := None)], c.closed + [h], c.destroyed + [s])
  }

  /** The surface-closing half of `present_layers`'s first loop: each layer in
    * turn is closed, starting from empty logs. */
  function Close(arena: map<Handle, CompositorLayer>, ls: seq<FlutterLayer>): (r: Closing)
    requires InArena(arena, ls)
    ensures r.arena.Keys == arena.Keys
    ensures |r.closed| == |r.destroyed|
    decreases |ls|
  {
    if ls == [] then Closing(arena, [], [])
    else CloseStep(Close(arena, ls[..|ls| - 1]), ls[|ls| - 1].store)
  }

  lemma CloseLast(arena: map<Handle, CompositorLayer>, ls: seq<FlutterLayer>, l: FlutterLayer)
    requires InArena(arena, ls + [l])
    ensures Close(arena, ls + [l]) == CloseStep(Close(arena, ls), l.store)
  {
    assert (ls + [l])[..|ls|] == ls;
  }

  /** `c` with logs written before it put in front of its own. */
  function AfterLogs(closed0: seq<Handle>, destroyed0: seq<SurfaceId>, c: Closing): Closing
  {
    Closing(c.arena, closed0 + c.closed, destroyed0 + c.destroyed)
  }

  /** Closing does not look at the logs already written: it only appends. */
  lemma CloseStepAppends(c: Closing, closed0: seq<Handle>, destroyed0: seq<SurfaceId>, h: Handle)
    requires h in c.arena
    ensures CloseStep(AfterLogs(closed0, destroyed0, c), h) == AfterLogs(closed0, destroyed0, CloseStep(c, h))
  {
    match c.arena[h].eglSurface {
      case None =>
      case Some(s) =>
        assert closed0 + c.closed + [h] == closed0 + (c.closed + [h]);
        assert destroyed0 + c.destroyed + [s] == destroyed0 + (c.destroyed + [s]);
    }
  }

  /** Closing one more layer after logs already written. */
  lemma CloseOneMore(arena: map<Handle, CompositorLayer>, closed0: seq<Handle>, destroyed0: seq<SurfaceId>,
                     ls: seq<FlutterLayer>, l: FlutterLayer)
    requires InArena(arena, ls) && l.store in arena
    ensures InArena(arena, ls + [l])
    ensures l.store in AfterLogs(closed0, destroyed0, Close(arena, ls)).arena
    ensures CloseStep(AfterLogs(closed0, destroyed0, Close(arena, ls)), l.store)
            == AfterLogs(closed0, destroyed0, Close(arena, ls + [l]))
  {
    assert (ls + [l])[|ls|] == l;
    CloseLast(arena, ls, l);
    CloseStepAppends(Close(arena, ls), closed0, destroyed0, l.store);
  }

  /**
   * The arena after closing: every layer passed has no open surface, and
   * nothing else changes; the layers passed differ from before only in the
   * surface slot.
   */
  lemma {:induction false} ClosedArena(arena: map<Handle, CompositorLayer>, ls: seq<FlutterLayer>)
    requires InArena(arena, ls)
    ensures forall h :: h in arena ==>
              Close(arena, ls).arena[h] ==
                (if h in Stores(ls) then arena[h].(eglSurface := None) else arena[h])
    decreases |ls|
  {
    if ls != [] {
      var n := |ls| - 1;
      ClosedArena(arena, ls[..n]);
      assert ls == ls[..n] + [ls[n]];
      assert Stores(ls) == Stores(ls[..n]) + {ls[n].store};
    }
  }

  /** Closing leaves every layer's visual where it was. */
  lemma CloseKeepsVisuals(arena: map<Handle, CompositorLayer>, ls: seq<FlutterLayer>, m: seq<FlutterLayer>)
    requires InArena(arena, ls)
    requires InArena(arena, m)
    ensures Visuals(Close(arena, ls).arena, m) == Visuals(arena, m)
  {
    ClosedArena(arena, ls);
  }

  /** `EndDraw` and the destruction happen for a layer exactly when it is
    * among the layers passed and had a surface open before the call. */
  lemma {:induction false} ClosedAreTheOpen(arena: map<Handle, CompositorLayer>, ls: seq<FlutterLayer>)
    requires InArena(arena, ls)
    ensures forall h :: h in Close(arena, ls).closed <==>
              h in Stores(ls) && arena[h].eglSurface.Some?
    decreases |ls|
  {
    if ls != [] {
      var n := |ls| - 1;
      var pre := ls[..n];
      ClosedAreTheOpen(arena, pre);
      ClosedArena(arena, pre);
      assert ls == pre + [ls[n]];
      CloseLast(arena, pre, ls[n]);
      assert Stores(ls) == Stores(pre) + {ls[n].store};
    }
  }

  /** No layer is closed twice, even when it appears twice in the list. */
  lemma {:induction false} ClosedOnce(arena: map<Handle, CompositorLayer>, ls: seq<FlutterLayer>)
    requires InArena(arena, ls)
    ensures forall i, j :: 0 <= i < j < |Close(arena, ls).closed| ==>
              Close(arena, ls).closed[i] != Close(arena, ls).closed[j]
    decreases |ls|
  {
    if ls != [] {
      var n := |ls| - 1;
      var pre := ls[..n];
      var h := ls[n].store;
      ClosedOnce(arena, pre);
      ClosedAreTheOpen(arena, pre);
      ClosedArena(arena, pre);
      var c := Close(arena, pre);
      assert Close(arena, ls) == CloseStep(c, h);
      if c.arena[h].eglSurface.Some? {
        assert h !in c.closed;
      }
    }
  }

  /** The destroyed surfaces are, in order, the ones the closed layers had
    * open before the call. */
  lemma {:induction false} ClosedSurfaces(arena: map<Handle, CompositorLayer>, ls: seq<FlutterLayer>)
    requires InArena(arena, ls)
    ensures forall i :: 0 <= i < |Close(arena, ls).closed| ==>
              Close(arena, ls).closed[i] in arena
              && Some(Close(arena, ls).destroyed[i]) == arena[Close(arena, ls).closed[i]].eglSurface
    decreases |ls|
  {
    if ls != [] {
      var n := |ls| - 1;
      var pre := ls[..n];
      var h := ls[n].store;
      ClosedSurfaces(arena, pre);
      ClosedArena(arena, pre);
      assert Close(arena, ls) == CloseStep(Close(arena, pre), h);
    }
  }

  /** A set of handles always leaves some handle free. */
  ghost function Bound(s: set<Handle>): (b: Handle)
    ensures forall x :: x in s ==> x < b
    decreases |s|
  {
    if s == {} then 0
    else
      var x :| x in s;
      var b := Bound(s - {x});
      assert forall y :: y in s ==> y == x || y in s - {x};
      if x < b then b else x + 1
  }

  /** An id above every id in `vs`. */
  function Above(vs: seq<VisualId>): (b: VisualId)
    ensures forall i :: 0 <= i < |vs| ==> vs[i] < b
    decreases |vs|
  {
    if vs == [] then 0
    else
      var rest := Above(vs[..|vs| - 1]);
      var last := vs[|vs| - 1];
      if last < rest then rest else last + 1
  }

  /** `FlutterTransformation`: a 3x3 matrix in row-major order. */
  datatype Transformation = Transformation(scaleX: real, skewX: real, transX: real,
                                           skewY: real, scaleY: real, transY: real,
                                           pers0: real, pers1: real, pers2: real)

  /** Where a transformation sends the point (x, y); none when the point goes
    * to infinity. */
  function Apply(t: Transformation, x: real, y: real): Option<(real, real)>
  {
    var w := t.pers0 * x + t.pers1 * y + t.pers2;
    if w == 0.0 then None
    else Some(((t.scaleX * x + t.skewX * y + t.transX) / w, (t.skewY * x + t.scaleY * y + t.transY) / w))
  }

  /** `get_surface_transformation`, given the height the handler reports: a
    * vertical flip within the surface, which undoes itself. */
  function SurfaceTransformation(height: nat): (t: Transformation)
    ensures forall x: real, y: real :: Apply(t, x, y) == Some((x, height as real - y))
    ensures forall x: real, y: real :: Apply(t, x, height as real - y) == Some((x, y))
  {
    Transformation(1.0, 0.0, 0.0, 0.0, -1.0, height as real, 0.0, 0.0, 1.0)
  }

  /** `FlutterCompositor`, with the foreign state it drives. */
  class Compositor {
    var arena: map<Handle, CompositorLayer>   // the leaked `CompositorFlutterLayer`s
    var layers: seq<LayerAddr>                // `self.layers`, the previous frame's layers
    var children: seq<VisualId>               // the root visual's children, bottom to top
    // Abstract effects of Windows Composition, EGL and the handler.
    var nextVisual: VisualId                  // the id the next `CreateSpriteVisual` returns
    var nextSurface: SurfaceId                // the id the next EGL surface gets
    var endDraws: seq<Handle>                 // `EndDraw` calls, by layer
    var destroyed: seq<SurfaceId>             // EGL surfaces destroyed, in order
    var treeEdits: nat                        // `RemoveAll` and `InsertAtTop` calls on the children
    var presents: nat                         // `handler.present()` calls

    /** Visual and surface ids in the arena and among the root's children
      * were all handed out already, so a new visual is a fresh one. */
    ghost predicate Valid()
      reads this
    {
      && (forall h :: h in arena ==>
            arena[h].visual < nextVisual
            && (arena[h].eglSurface.Some? ==> arena[h].eglSurface.value < nextSurface))
      && (forall i :: 0 <= i < |children| ==> children[i] < nextVisual)
    }

    /** `FlutterCompositor::new` over a root visual with the given children. */
    constructor (rootChildren: seq<VisualId>)
      ensures Valid()
      ensures arena == map[] && layers == [] && children == rootChildren
      ensures endDraws == [] && destroyed == [] && treeEdits == 0 && presents == 0
    {
      arena, layers, children := map[], [], rootChildren;
      nextVisual, nextSurface := Above(rootChildren), 0;
      endDraws, destroyed := [], [];
      treeEdits, presents := 0, 0;
    }

    /** `create_backing_store`: a new layer at an address not in use, with a
      * fresh visual of the requested size and no EGL surface open, announced
      * as an OpenGL surface backing store in `GL_BGRA8_EXT`. */
    method CreateBackingStore(width: nat, height: nat) returns (store: BackingStore)
      requires Valid()
      modifies this`arena, this`nextVisual
      ensures Valid()
      ensures store.userData !in old(arena)
      ensures arena == old(arena)[store.userData := CompositorLayer(old(nextVisual), width, height, None)]
      ensures store == BackingStore(OpenGLStore, SurfaceTarget, GL_BGRA8_EXT, store.userData)
      ensures nextVisual == old(nextVisual) + 1
    {
      var visual := nextVisual;
      nextVisual := nextVisual + 1;
      ghost var free := Bound(arena.Keys);
      assert free !in arena;
      var h :| h !in arena;
      arena := arena[h := CompositorLayer(visual, width, height, None)];
      store := BackingStore(OpenGLStore, SurfaceTarget, GL_BGRA8_EXT, h);
    }

    /** The layer's `make_surface_current`: begin a draw and open exactly one
      * EGL surface on a layer that has none (a second one aborts), clear
      * `gl_state_changed` and succeed. */
    method MakeSurfaceCurrent(h: Handle) returns (glStateChanged: bool, ok: bool)
      requires Valid()
      requires h in arena && arena[h].eglSurface.None?
      modifies this`arena, this`nextSurface
      ensures Valid()
      ensures arena == old(arena)[h := old(arena)[h].(eglSurface := Some(old(nextSurface)))]
      ensures nextSurface == old(nextSurface) + 1
      ensures !glStateChanged && ok
    {
      var s := nextSurface;
      nextSurface := nextSurface + 1;
      arena := arena[h := arena[h].(eglSurface := Some(s))];
      glStateChanged, ok := false, true;
    }

    /** The layer's `clear_current_surface`: unbinds the context only, so the
      * layer's surface slot stays as it is; it always succeeds. */
    method ClearCurrentSurface(h: Handle) returns (ok: bool)
      requires h in arena
      ensures ok
    {
      ok := true;
    }

    /** `collect_backing_store`: destroy the layer's open EGL surface, if any,
      * and free the layer; its handle is no longer valid. */
    method CollectBackingStore(store: BackingStore)
      requires Valid()
      requires store.userData in arena
      modifies this`arena, this`destroyed
      ensures Valid()
      ensures arena == old(arena) - {store.userData}
      ensures destroyed == old(destroyed) + match old(arena)[store.userData].eglSurface
                                            case None => []
                                            case Some(s) => [s]
    {
      var h := store.userData;
      match arena[h].eglSurface {
        case Some(s) => destroyed := destroyed + [s];
        case None =>
      }
      arena := arena - {h};
    }

    /** One layer's turn in the first loop of `present_layers`: if an EGL
      * surface is open on it, `take` it, `EndDraw` and destroy it. */
    method CloseLayerSurface(h: Handle)
      requires h in arena
      modifies this`arena, this`endDraws, this`destroyed
      ensures Closing(arena, endDraws, destroyed)
              == CloseStep(Closing(old(arena), old(endDraws), old(destroyed)), h)
    {
      match arena[h].eglSurface {
        case Some(s) =>
          endDraws := endDraws + [h];
          destroyed := destroyed + [s];
          arena := arena[h := arena[h].(eglSurface := None)];
        case None =>
      }
    }

    /** The first loop of `present_layers`: compare the stored layers with
      * the new ones position by position (indexing the stored list only while
      * the counts agree) and close every open surface among the new ones. */
    method CloseAndCompare(input: seq<FlutterLayer>) returns (rebuild: bool)
      requires InArena(arena, input)
      requires forall i :: 0 <= i < |input| ==> input[i].contentType == BackingStoreContent
      modifies this`arena, this`endDraws, this`destroyed
      ensures rebuild == LayerOrderChanged(layers, input)
      ensures arena == Close(old(arena), input).arena
      ensures endDraws == old(endDraws) + Close(old(arena), input).closed
      ensures destroyed == old(destroyed) + Close(old(arena), input).destroyed
    {
      rebuild := |layers| != |input|;
      ghost var seen: seq<FlutterLayer> := [];
      var i := 0;
      while i < |input|
        invariant 0 <= i <= |input| && seen == input[..i] && InArena(old(arena), seen)
        invariant !rebuild ==> |layers| == |input|
        invariant rebuild == (|layers| != |input| || DiffersBefore(layers, input, i))
        invariant Closing(arena, endDraws, destroyed)
                  == AfterLogs(old(endDraws), old(destroyed), Close(old(arena), seen))
      {
        var layer := input[i];
        if |layers| == |input| {
          DiffersStep(layers, input, i);
        }
        rebuild := rebuild || layers[i] != layer.addr;
        assert seen + [layer] == input[..i + 1];
        CloseOneMore(old(arena), old(endDraws), old(destroyed), seen, layer);
        CloseLayerSurface(layer.store);
        seen := seen + [layer];
        i := i + 1;
      }
      assert seen == input;
    }

    /** The rebuild branch of `present_layers`: `RemoveAll` on the children
      * and a clear of the snapshot, then per layer an `InsertAtTop` of its
      * visual and a push of the layer. */
    method RebuildChildren(input: seq<FlutterLayer>)
      requires InArena(arena, input)
      modifies this`children, this`layers, this`treeEdits
      ensures children == Visuals(arena, input)
      ensures layers == Addrs(input)
      ensures treeEdits == old(treeEdits) + 1 + |input|
    {
      children := [];
      treeEdits := treeEdits + 1;
      layers := [];
      var k := 0;
      while k < |input|
        invariant 0 <= k <= |input|
        invariant children == Visuals(arena, input[..k])
        invariant layers == Addrs(input[..k])
        invariant treeEdits == old(treeEdits) + 1 + k
      {
        children := children + [arena[input[k].store].visual];
        treeEdits := treeEdits + 1;
        layers := layers + [input[k].addr];
        k := k + 1;
      }
      assert input[..k] == input;
    }

    /**
     * `present_layers`. Every layer passed loses its open surface (its draw
     * ended and the surface destroyed); the visual tree is rebuilt, bottom to
     * top in the order given, exactly when the layer list differs from the
     * stored one, and left alone otherwise; the new list is stored; the
     * handler presents last. A layer that is not a backing store aborts.
     */
    method PresentLayers(input: seq<FlutterLayer>) returns (rebuilt: bool)
      requires Valid()
      requires InArena(arena, input)
      requires forall i :: 0 <= i < |input| ==> input[i].contentType == BackingStoreContent
      modifies this`arena, this`layers, this`children, this`endDraws, this`destroyed,
               this`treeEdits, this`presents
      ensures Valid()
      ensures rebuilt == LayerOrderChanged(old(layers), input)
      ensures arena == Close(old(arena), input).arena
      ensures endDraws == old(endDraws) + Close(old(arena), input).closed
      ensures destroyed == old(destroyed) + Close(old(arena), input).destroyed
      ensures layers == Addrs(input)
      ensures rebuilt ==> children == Visuals(old(arena), input) && treeEdits == old(treeEdits) + 1 + |input|
      ensures !rebuilt ==> children == old(children) && treeEdits == old(treeEdits)
      ensures presents == old(presents) + 1
    {
      rebuilt := CloseAndCompare(input);
      ClosedArena(old(arena), input);
      if rebuilt {
        RebuildChildren(input);
        assert Visuals(arena, input) == Visuals(old(arena), input);
      } else {
        LayerOrderChangedIff(layers, input);
      }
      presents := presents + 1;
    }
  }

  /** Three layers composited as [A, B, C] and then again as [A, B, C]: the
    * first frame puts their visuals in that order, the second rebuilds
    * nothing and edits no children. */
  method SameOrderScenario()
  {
    var c := new Compositor([]);
    var a := c.CreateBackingStore(100, 100);
    var b := c.CreateBackingStore(100, 100);
    var d := c.CreateBackingStore(100, 100);
    var abc := [FlutterLayer(1, BackingStoreContent, a.userData),
                FlutterLayer(2, BackingStoreContent, b.userData),
                FlutterLayer(3, BackingStoreContent, d.userData)];
    var expected := Visuals(c.arena, abc);

    var rebuilt := c.PresentLayers(abc);
    assert rebuilt && c.children == expected;

    var edits := c.treeEdits;
    rebuilt := c.PresentLayers(abc);
    assert !rebuilt && c.treeEdits == edits && c.children == expected;
  }

  /** A layer drawn into since the last frame: presenting it ends that draw
    * and destroys its surface, leaving the slot empty. */
  method OpenSurfaceScenario()
  {
    var c := new Compositor([]);
    var a := c.CreateBackingStore(100, 100);
    var h := a.userData;
    var g, ok := c.MakeSurfaceCurrent(h);
    var s := c.arena[h].eglSurface.value;
    var la := FlutterLayer(1, BackingStoreContent, h);
    ghost var before := c.arena;
    var rebuilt := c.PresentLayers([la]);
    assert [la][..0] == [];
    assert Close(before, [la]) == CloseStep(Close(before, []), h);
    assert c.endDraws == [h] && c.destroyed == [s];
    assert c.arena[h].eglSurface == None;
  }

  /** Three layers composited as [A, B, C] and then as [B, A, C]: the second
    * frame rebuilds the children in the new order. */
  method ReorderScenario()
  {
    var c := new Compositor([]);
    var a := c.CreateBackingStore(100, 100);
    var b := c.CreateBackingStore(100, 100);
    var d := c.CreateBackingStore(100, 100);
    var la := FlutterLayer(1, BackingStoreContent, a.userData);
    var lb := FlutterLayer(2, BackingStoreContent, b.userData);
    var ld := FlutterLayer(3, BackingStoreContent, d.userData);
    var bac := [lb, la, ld];
    var expected := Visuals(c.arena, bac);

    ghost var before := c.arena;
    var rebuilt := c.PresentLayers([la, lb, ld]);
    CloseKeepsVisuals(before, [la, lb, ld], bac);
    assert LayerOrderChanged(c.layers, bac) by { assert c.layers[0] != lb.addr; }

    rebuilt := c.PresentLayers(bac);
    assert rebuilt && c.children == expected;
  }
}
