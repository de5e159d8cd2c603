/** The layer's state as a value, and what each of its operations does to it.
    The class in module YandexLayer is proved to follow these functions. */
module Lifecycle {
  import opened JsValues
  import MapTypes

  /** A pixel size; the container's `style.width`/`style.height` are this written with "px". */
  datatype Size = Size(x: int, y: int)

  /** A geographical position, passed through unchanged. */
  datatype LatLng = LatLng(lat: real, lng: real)

  /** What the layer reads off the host map at the time of a call. */
  datatype Viewport = Viewport(size: Size, center: LatLng, zoom: real)

  /** The SDK's readiness: whether `ymaps.Map` and `ymaps.control.TrafficControl` are loaded. */
  datatype Sdk = Sdk(mapReady: bool, trafficReady: bool)

  /** What `_type` holds: a resolved name, or the overlay `MapType` object. */
  datatype MapTypeValue = Named(id: string) | OverlayType

  /** One call into the SDK or one event fired by the layer, in the order they happen. */
  datatype Effect =
    | LoadPackages(packages: seq<string>)
    | CreateWidget
    | AddTrafficControl
    | SetType(mapType: MapTypeValue)
    | FitToViewport
    | SetCenter(center: LatLng, zoom: real)
    | MapObjectInitialized

  datatype LayerState = LayerState(
    options: map<string, Js>,
    mapType: MapTypeValue,
    hasContainer: bool,             // `_container` exists
    attached: bool,                 // the container is in the host map's DOM
    containerSize: Option<Size>,    // the container's style size, unset at first
    containerOpacity: Option<Js>,   // the opacity style set on the container, if any
    transparentBackground: bool,    // the widget's element has a transparent background
    hasHandle: bool,                // `_yandex` exists
    trace: seq<Effect>)

  /** The state `initialize` leaves behind. */
  function Initial(options: map<string, Js>, mapType: string): (r: LayerState)
    ensures "opacity" in options ==> Valid(r)
    ensures !r.hasContainer && !r.hasHandle && Centers(r.trace) == []
  {
    LayerState(options, Named(mapType), false, false, None, None, false, false, [])
  }

  /** The shape every reachable state has. */
  predicate Coherent(s: LayerState) {
    && "opacity" in s.options
    && (s.hasHandle ==> s.hasContainer)
    && (s.containerSize.Some? ==> s.hasContainer)
  }

  /** The invariant: at most one widget, created exactly when the handle exists, and
      the ready event fired once for it. */
  predicate Valid(s: LayerState) {
    && Coherent(s)
    && multiset(s.trace)[CreateWidget] == (if s.hasHandle then 1 else 0)
    && multiset(s.trace)[MapObjectInitialized] == (if s.hasHandle then 1 else 0)
  }

  /** The centers and zooms pushed to the widget, in order. */
  function Centers(trace: seq<Effect>): seq<(LatLng, real)> {
    if trace == [] then []
    else
      var rest := Centers(trace[1..]);
      if trace[0].SetCenter? then [(trace[0].center, trace[0].zoom)] + rest else rest
  }

  lemma {:induction false} CentersAppend(a: seq<Effect>, b: seq<Effect>)
    ensures Centers(a + b) == Centers(a) + Centers(b)
  {
    if a == [] {
      assert a + b == b;
    } else {
      assert (a + b)[1..] == a[1..] + b;
      CentersAppend(a[1..], b);
    }
  }

  lemma CentersOfOthers(e: Effect)
    requires !e.SetCenter?
    ensures Centers([e]) == []
  {
    assert [e][1..] == [];
  }

  // ---------------------------------------------------------------- operations

  /** `setOpacity(opacity)`: the option is always recorded; below 1 the container's
      opacity is set, which throws (`ok == false`) when there is no container. */
  function AfterSetOpacity(s: LayerState, opacity: Js): (r: (LayerState, bool))
    ensures r.0.options == s.options["opacity" := opacity]
    ensures !r.1 <==> LessThanOne(opacity) && !s.hasContainer
    ensures r.0.containerOpacity == if LessThanOne(opacity) && s.hasContainer then Some(opacity) else s.containerOpacity
    ensures r.0.(options := s.options, containerOpacity := s.containerOpacity) == s
  {
    var recorded := s.(options := s.options["opacity" := opacity]);
    if !LessThanOne(opacity) then (recorded, true)
    else if !s.hasContainer then (recorded, false)
    else (recorded.(containerOpacity := Some(opacity)), true)
  }

  /** `_initContainer` (and `_reset`, which only calls it): create the container
      if there is none, applying the configured opacity; then, on every call,
      attach it and size it to the host. */
  function AfterInitContainer(s: LayerState, size: Size): (t: LayerState)
    ensures t.hasContainer && t.attached && t.containerSize == Some(size)
    ensures s.hasContainer ==> t.containerOpacity == s.containerOpacity
    ensures !s.hasContainer ==>
      t.containerOpacity == if LessThanOne(Lookup(s.options, "opacity")) then Some(Lookup(s.options, "opacity")) else s.containerOpacity
    ensures "opacity" in s.options ==> t.options == s.options
    ensures t.trace == s.trace && t.hasHandle == s.hasHandle && t.mapType == s.mapType
  {
    var created :=
      if s.hasContainer then s
      else AfterSetOpacity(s.(hasContainer := true), Lookup(s.options, "opacity")).0;
    created.(attached := true, containerSize := Some(size))
  }

  /** `_resize(force)`: skipped when the container already has the host's size and
      `force` is not exactly `true`; otherwise resize and refit the widget. */
  function AfterResize(s: LayerState, size: Size, force: Js): (t: LayerState)
    ensures t.containerSize == Some(size)
    ensures t.trace == s.trace || t.trace == s.trace + [FitToViewport]
    ensures t.options == s.options && t.hasHandle == s.hasHandle && t.containerOpacity == s.containerOpacity
  {
    if s.containerSize == Some(size) && force != Bool(true) then s
    else s.(containerSize := Some(size), trace := s.trace + [FitToViewport])
  }

  /** `_update(force)`: nothing without a handle; otherwise resize, then recenter. */
  function AfterUpdate(s: LayerState, vp: Viewport, force: Js): (t: LayerState)
    ensures t.options == s.options && t.hasHandle == s.hasHandle && t.hasContainer == s.hasContainer
    ensures t.attached == s.attached && t.containerOpacity == s.containerOpacity
    ensures s.trace <= t.trace
    ensures s.hasHandle ==>
      t.containerSize == Some(vp.size) && |s.trace| < |t.trace| && t.trace[|t.trace| - 1] == SetCenter(vp.center, vp.zoom)
  {
    if !s.hasHandle then s
    else
      var resized := AfterResize(s, vp.size, force);
      resized.(trace := resized.trace + [SetCenter(vp.center, vp.zoom)])
  }

  predicate WantsTraffic(s: LayerState) {
    Truthy(Lookup(s.options, "traffic"))
  }

  predicate WantsOverlay(s: LayerState) {
    Truthy(Lookup(s.options, "overlay"))
  }

  /** `_initMapObject`: a no-op once the handle exists; a load request while a
      needed SDK package is missing; otherwise create the widget, add the traffic
      control if asked, switch to the overlay type if asked, set the type, update
      with force and fire the ready event. */
  function AfterInitMapObject(s: LayerState, sdk: Sdk, vp: Viewport): (t: LayerState)
    ensures t.hasHandle <==> s.hasHandle || (sdk.mapReady && (WantsTraffic(s) ==> sdk.trafficReady))
    ensures s.trace <= t.trace
    ensures t.hasHandle && !s.hasHandle ==> |s.trace| < |t.trace| && t.trace[|t.trace| - 1] == MapObjectInitialized
    ensures t.options == s.options && t.hasContainer == s.hasContainer && t.attached == s.attached
  {
    if s.hasHandle then s
    else if !sdk.mapReady then
      s.(trace := s.trace + [LoadPackages(["package.map"])])
    else if WantsTraffic(s) && !sdk.trafficReady then
      s.(trace := s.trace + [LoadPackages(["package.traffic", "package.controls"])])
    else
      var synced := AfterUpdate(AfterCreateWidget(s), vp, Bool(true));
      synced.(trace := synced.trace + [MapObjectInitialized])
  }

  /** The construction step of `_initMapObject`: the widget, its traffic control if
      asked, the overlay type if asked, and its type. */
  function AfterCreateWidget(s: LayerState): (t: LayerState)
    ensures s.trace + [CreateWidget] <= t.trace
    ensures t.hasHandle && t.trace[|t.trace| - 1] == SetType(t.mapType)
    ensures t.mapType == if WantsOverlay(s) then OverlayType else s.mapType
    ensures t.transparentBackground == (WantsOverlay(s) || s.transparentBackground)
    ensures t.options == s.options && t.hasContainer == s.hasContainer && t.attached == s.attached
    ensures t.containerSize == s.containerSize && t.containerOpacity == s.containerOpacity
  {
    var t := if WantsOverlay(s) then OverlayType else s.mapType;
    s.(
      mapType := t,
      transparentBackground := if WantsOverlay(s) then true else s.transparentBackground,
      hasHandle := true,
      trace := s.trace + [CreateWidget] + (if WantsTraffic(s) then [AddTrafficControl] else []) + [SetType(t)])
  }

  /** The layer's part of `onAdd`: container, widget, and, when the host has control
      corners (without them setting the margin throws, `ok == false`), a reset and a
      forced update. */
  function AfterAdd(s: LayerState, vp: Viewport, sdk: Sdk, hasCorners: bool): (r: (LayerState, bool))
    ensures r.1 == hasCorners
    ensures r.0.hasContainer && r.0.attached && r.0.containerSize == Some(vp.size)
    ensures s.trace <= r.0.trace
    ensures r.0.hasHandle <==> s.hasHandle || (sdk.mapReady && (WantsTraffic(s) ==> sdk.trafficReady))
  {
    var prepared := AfterInitMapObject(AfterInitContainer(s, vp.size), sdk, vp);
    if !hasCorners then (prepared, false)
    else (AfterUpdate(AfterInitContainer(prepared, vp.size), vp, Bool(true)), true)
  }

  /** `AfterAdd` on a host with control corners, step by step. */
  lemma AddSteps(s: LayerState, vp: Viewport, sdk: Sdk, contained: LayerState, prepared: LayerState, reset: LayerState)
    requires contained == AfterInitContainer(s, vp.size)
    requires prepared == AfterInitMapObject(contained, sdk, vp)
    requires reset == AfterInitContainer(prepared, vp.size)
    ensures AfterAdd(s, vp, sdk, true) == (AfterUpdate(reset, vp, Bool(true)), true)
  {
  }

  /** `AfterAdd` on a host without control corners stops after the widget step. */
  lemma AddStepsWithoutCorners(s: LayerState, vp: Viewport, sdk: Sdk, prepared: LayerState)
    requires prepared == AfterInitMapObject(AfterInitContainer(s, vp.size), sdk, vp)
    ensures AfterAdd(s, vp, sdk, false) == (prepared, false)
  {
  }

  /** The layer's part of `onRemove`: detach the container; without one, it throws. */
  function AfterRemove(s: LayerState): (r: (LayerState, bool))
    ensures r.1 <==> s.hasContainer
    ensures r.1 ==> !r.0.attached
    ensures r.0.(attached := s.attached) == s
  {
    if !s.hasContainer then (s, false) else (s.(attached := false), true)
  }

  // ------------------------------------------------------- the invariant holds

  lemma SetOpacityPreservesValid(s: LayerState, opacity: Js)
    requires Valid(s)
    ensures Valid(AfterSetOpacity(s, opacity).0)
  {
  }

  lemma InitContainerPreservesValid(s: LayerState, size: Size)
    requires Valid(s)
    ensures Valid(AfterInitContainer(s, size))
  {
    if !s.hasContainer {
      SetOpacityPreservesValid(s.(hasContainer := true), Lookup(s.options, "opacity"));
    }
  }

  lemma UpdatePreservesValid(s: LayerState, vp: Viewport, force: Js)
    requires Valid(s)
    ensures Valid(AfterUpdate(s, vp, force))
  {
  }

  lemma InitMapObjectPreservesValid(s: LayerState, sdk: Sdk, vp: Viewport)
    requires Valid(s) && s.hasContainer
    ensures Valid(AfterInitMapObject(s, sdk, vp))
  {
    if s.hasHandle {
    } else if !sdk.mapReady || (WantsTraffic(s) && !sdk.trafficReady) {
      InitMapObjectWaitsForSdk(s, sdk, vp);
    } else {
      CreationCountsOnce(s, sdk, vp);
    }
  }

  /** The widget creation adds one widget and one ready event to the trace. */
  lemma CreationCountsOnce(s: LayerState, sdk: Sdk, vp: Viewport)
    requires !s.hasHandle && sdk.mapReady && (WantsTraffic(s) ==> sdk.trafficReady)
    ensures var t := AfterInitMapObject(s, sdk, vp);
      multiset(t.trace)[CreateWidget] == multiset(s.trace)[CreateWidget] + 1 &&
      multiset(t.trace)[MapObjectInitialized] == multiset(s.trace)[MapObjectInitialized] + 1
  {
    var c := AfterCreateWidget(s);
    CreateWidgetCounts(s);
    UpdateKeepsCounts(c, vp, Bool(true));
    var u := AfterUpdate(c, vp, Bool(true));
    assert AfterInitMapObject(s, sdk, vp).trace == u.trace + [MapObjectInitialized];
  }

  lemma CreateWidgetCounts(s: LayerState)
    ensures var c := AfterCreateWidget(s);
      multiset(c.trace)[CreateWidget] == multiset(s.trace)[CreateWidget] + 1 &&
      multiset(c.trace)[MapObjectInitialized] == multiset(s.trace)[MapObjectInitialized]
  {
    var ty := if WantsOverlay(s) then OverlayType else s.mapType;
    var c := AfterCreateWidget(s);
    if WantsTraffic(s) {
      assert c.trace == s.trace + [CreateWidget, AddTrafficControl, SetType(ty)];
    } else {
      assert c.trace == s.trace + [CreateWidget, SetType(ty)];
    }
  }

  /** `_update` neither creates a widget nor fires the ready event. */
  lemma UpdateKeepsCounts(s: LayerState, vp: Viewport, force: Js)
    ensures var u := AfterUpdate(s, vp, force);
      multiset(u.trace)[CreateWidget] == multiset(s.trace)[CreateWidget] &&
      multiset(u.trace)[MapObjectInitialized] == multiset(s.trace)[MapObjectInitialized]
  {
  }

  lemma AddPreservesValid(s: LayerState, vp: Viewport, sdk: Sdk, hasCorners: bool)
    requires Valid(s)
    ensures Valid(AfterAdd(s, vp, sdk, hasCorners).0)
  {
    var c := AfterInitContainer(s, vp.size);
    InitContainerPreservesValid(s, vp.size);
    InitMapObjectPreservesValid(c, sdk, vp);
    var p := AfterInitMapObject(c, sdk, vp);
    InitContainerPreservesValid(p, vp.size);
    UpdatePreservesValid(AfterInitContainer(p, vp.size), vp, Bool(true));
  }

  lemma RemovePreservesValid(s: LayerState)
    requires Valid(s)
    ensures Valid(AfterRemove(s).0)
  {
  }

  /** However the operations interleave, at most one widget is ever created. */
  lemma AtMostOneWidget(s: LayerState)
    requires Valid(s)
    ensures multiset(s.trace)[CreateWidget] <= 1
    ensures multiset(s.trace)[MapObjectInitialized] == multiset(s.trace)[CreateWidget]
  {
  }

  // --------------------------------------------------------- resynchronisation

  /** `_resize` leaves the state alone exactly when the size is unchanged and
      `force` is not `true`; otherwise the container takes the host's size and the
      widget is refitted once. */
  lemma ResizeSkipsExactlyWhenUnchanged(s: LayerState, size: Size, force: Js)
    ensures var t := AfterResize(s, size, force);
      (t == s <==> s.containerSize == Some(size) && force != Bool(true)) &&
      t.containerSize == Some(size) &&
      multiset(t.trace)[FitToViewport] ==
        multiset(s.trace)[FitToViewport] + (if t == s then 0 else 1)
  {
    var t := AfterResize(s, size, force);
    if !(s.containerSize == Some(size) && force != Bool(true)) {
      assert |t.trace| == |s.trace| + 1;
    }
  }

  /** A `move` event object passed as `force` does not force a resize. */
  lemma EventObjectDoesNotForce(s: LayerState, size: Size, event: map<string, Js>)
    requires s.containerSize == Some(size)
    ensures AfterResize(s, size, Obj(event)) == s
  {
  }

  /** Without a handle, `_update` has no effect at all. */
  lemma UpdateWithoutHandleIsNoOp(s: LayerState, vp: Viewport, force: Js)
    requires !s.hasHandle
    ensures AfterUpdate(s, vp, force) == s
  {
  }

  /** With a handle, every `_update` pushes the host's center and zoom exactly once,
      as its last call, whatever `force` is. */
  lemma UpdateRecentersOnce(s: LayerState, vp: Viewport, force: Js)
    requires s.hasHandle
    ensures var t := AfterUpdate(s, vp, force);
      Centers(t.trace) == Centers(s.trace) + [(vp.center, vp.zoom)] &&
      t.trace[|t.trace| - 1] == SetCenter(vp.center, vp.zoom)
  {
    var r := AfterResize(s, vp.size, force);
    CentersAppend(r.trace, [SetCenter(vp.center, vp.zoom)]);
    assert [SetCenter(vp.center, vp.zoom)][1..] == [];
    if r != s {
      CentersAppend(s.trace, [FitToViewport]);
      CentersOfOthers(FitToViewport);
    }
  }

  /** Two updates with an unchanged host size: the second, unless forced with `true`,
      refits nothing but still recenters. */
  lemma SecondUpdateOnlyRecenters(s: LayerState, vp: Viewport, first: Js, second: Js)
    requires s.hasHandle && second != Bool(true)
    ensures var t1 := AfterUpdate(s, vp, first);
      var t2 := AfterUpdate(t1, vp, second);
      multiset(t2.trace)[FitToViewport] == multiset(t1.trace)[FitToViewport] &&
      Centers(t2.trace) == Centers(t1.trace) + [(vp.center, vp.zoom)]
  {
    var t1 := AfterUpdate(s, vp, first);
    ResizeSkipsExactlyWhenUnchanged(s, vp.size, first);
    ResizeSkipsExactlyWhenUnchanged(t1, vp.size, second);
    UpdateRecentersOnce(t1, vp, second);
  }

  /** A forced update always refits and recenters, whether or not the size changed. */
  lemma ForcedUpdateRefits(s: LayerState, vp: Viewport)
    requires s.hasHandle
    ensures var t := AfterUpdate(s, vp, Bool(true));
      multiset(t.trace)[FitToViewport] == multiset(s.trace)[FitToViewport] + 1 &&
      Centers(t.trace) == Centers(s.trace) + [(vp.center, vp.zoom)] &&
      t.containerSize == Some(vp.size)
  {
    ResizeSkipsExactlyWhenUnchanged(s, vp.size, Bool(true));
    UpdateRecentersOnce(s, vp, Bool(true));
  }

  /** `viewreset` resizes the container itself, so an unforced update that follows
      does not refit the widget even when the host's size had changed. */
  lemma ResetThenUpdateDoesNotRefit(s: LayerState, vp: Viewport, force: Js)
    requires s.hasHandle && force != Bool(true)
    ensures var r := AfterInitContainer(s, vp.size);
      multiset(AfterUpdate(r, vp, force).trace)[FitToViewport] == multiset(r.trace)[FitToViewport]
  {
  }

  // ------------------------------------------------------------ the widget

  /** Once the handle exists, whatever happened since, `_initMapObject` changes nothing. */
  lemma InitMapObjectIdempotent(s: LayerState, sdk: Sdk, vp: Viewport)
    requires s.hasHandle
    ensures AfterInitMapObject(s, sdk, vp) == s
  {
  }

  /** While a needed SDK package is missing, `_initMapObject` only requests it. */
  lemma InitMapObjectWaitsForSdk(s: LayerState, sdk: Sdk, vp: Viewport)
    requires !s.hasHandle
    requires !sdk.mapReady || (WantsTraffic(s) && !sdk.trafficReady)
    ensures var t := AfterInitMapObject(s, sdk, vp);
      t == s.(trace := t.trace) && !t.hasHandle &&
      |t.trace| == |s.trace| + 1 && t.trace[|s.trace|].LoadPackages? &&
      multiset(t.trace)[CreateWidget] == multiset(s.trace)[CreateWidget]
  {
  }

  /** With the SDK ready, `_initMapObject` creates the widget, adds the traffic control
      if asked, sets the type (the overlay type when asked), refits and recenters
      through a forced update, and then fires the ready event. */
  lemma InitMapObjectSequence(s: LayerState, sdk: Sdk, vp: Viewport)
    requires !s.hasHandle && sdk.mapReady && (WantsTraffic(s) ==> sdk.trafficReady)
    ensures var t := AfterInitMapObject(s, sdk, vp);
      var ty := if WantsOverlay(s) then OverlayType else s.mapType;
      t.hasHandle && t.mapType == ty && t.containerSize == Some(vp.size) &&
      t.transparentBackground == (WantsOverlay(s) || s.transparentBackground) &&
      t.trace == s.trace + [CreateWidget] + (if WantsTraffic(s) then [AddTrafficControl] else [])
                 + [SetType(ty), FitToViewport, SetCenter(vp.center, vp.zoom), MapObjectInitialized]
  {
    var ty := if WantsOverlay(s) then OverlayType else s.mapType;
    var traffic: seq<Effect> := if WantsTraffic(s) then [AddTrafficControl] else [];
    var pre := s.trace + [CreateWidget] + traffic + [SetType(ty)];
    assert AfterInitMapObject(s, sdk, vp).trace == pre + [FitToViewport] + [SetCenter(vp.center, vp.zoom)] + [MapObjectInitialized];
  }

  /** A deferred initialisation retried after the SDK has loaded creates exactly one
      widget, and any further retry changes nothing. */
  lemma RetryCreatesOneWidget(s: LayerState, vp: Viewport, later: Viewport, sdk: Sdk)
    requires Valid(s) && s.hasContainer && !s.hasHandle
    requires !WantsTraffic(s)
    ensures var waiting := AfterInitMapObject(s, Sdk(false, false), vp);
      var ready := AfterInitMapObject(waiting, Sdk(true, false), later);
      !waiting.hasHandle && ready.hasHandle &&
      multiset(ready.trace)[CreateWidget] == 1 &&
      multiset(ready.trace)[MapObjectInitialized] == 1 &&
      AfterInitMapObject(ready, sdk, later) == ready
  {
    var waiting := AfterInitMapObject(s, Sdk(false, false), vp);
    InitMapObjectPreservesValid(s, Sdk(false, false), vp);
    InitMapObjectPreservesValid(waiting, Sdk(true, false), later);
  }

  /** With traffic on, the retry after `package.map` has loaded waits again, for the
      traffic control. */
  lemma TrafficLayerWaitsTwice(s: LayerState, vp: Viewport, later: Viewport)
    requires !s.hasHandle && WantsTraffic(s)
    ensures var waiting := AfterInitMapObject(AfterInitMapObject(s, Sdk(false, false), vp), Sdk(true, false), later);
      waiting == s.(trace := s.trace + [LoadPackages(["package.map"]), LoadPackages(["package.traffic", "package.controls"])])
  {
    var waiting := s.(trace := s.trace + [LoadPackages(["package.map"])]);
    assert AfterInitMapObject(s, Sdk(false, false), vp) == waiting;
    assert WantsTraffic(waiting);
    assert waiting.trace + [LoadPackages(["package.traffic", "package.controls"])]
        == s.trace + [LoadPackages(["package.map"]), LoadPackages(["package.traffic", "package.controls"])];
  }

  /** A traffic layer that has waited for both packages creates exactly one widget
      once both have loaded. */
  lemma RetryWithTrafficWaitsTwice(s: LayerState, vp: Viewport, later: Viewport, last: Viewport)
    requires Valid(s) && s.hasContainer && !s.hasHandle
    requires WantsTraffic(s)
    ensures var waiting := AfterInitMapObject(AfterInitMapObject(s, Sdk(false, false), vp), Sdk(true, false), later);
      var ready := AfterInitMapObject(waiting, Sdk(true, true), last);
      !waiting.hasHandle && ready.hasHandle &&
      multiset(ready.trace)[CreateWidget] == 1 &&
      multiset(ready.trace)[MapObjectInitialized] == 1
  {
    var waiting := AfterInitMapObject(AfterInitMapObject(s, Sdk(false, false), vp), Sdk(true, false), later);
    assert Valid(waiting) by {
      InitMapObjectPreservesValid(s, Sdk(false, false), vp);
      InitMapObjectPreservesValid(AfterInitMapObject(s, Sdk(false, false), vp), Sdk(true, false), later);
    }
    TrafficLayerWaitsTwice(s, vp, later);
    InitMapObjectPreservesValid(waiting, Sdk(true, true), last);
  }

  // ---------------------------------------------------- container and opacity

  /** `setOpacity` always records the option; it changes the container only below 1,
      and throws exactly when that needs a container that does not exist. */
  lemma SetOpacityEffects(s: LayerState, opacity: Js)
    ensures var (t, ok) := AfterSetOpacity(s, opacity);
      t.options == s.options["opacity" := opacity] &&
      (ok <==> !(LessThanOne(opacity) && !s.hasContainer)) &&
      (t.containerOpacity != s.containerOpacity ==> LessThanOne(opacity) && t.containerOpacity == Some(opacity)) &&
      (LessThanOne(opacity) && s.hasContainer ==> t.containerOpacity == Some(opacity)) &&
      t.(options := s.options, containerOpacity := s.containerOpacity) == s
  {
  }

  /** Going back to full opacity does not undo an earlier transparency. */
  lemma FullOpacityKeepsEarlierTransparency(s: LayerState)
    requires s.hasContainer
    ensures var half := AfterSetOpacity(s, Num(0.5)).0;
      AfterSetOpacity(half, Num(1.0)).0.containerOpacity == Some(Num(0.5))
  {
  }

  /** `_initContainer` creates a container only when none exists, but always
      attaches it and sizes it to the host. */
  lemma InitContainerEffects(s: LayerState, size: Size)
    requires Coherent(s)
    ensures var t := AfterInitContainer(s, size);
      t.hasContainer && t.attached && t.containerSize == Some(size) &&
      t.options == s.options && t.trace == s.trace && t.hasHandle == s.hasHandle &&
      (s.hasContainer ==> t.containerOpacity == s.containerOpacity) &&
      (!s.hasContainer ==>
         t.containerOpacity == if LessThanOne(s.options["opacity"]) then Some(s.options["opacity"]) else s.containerOpacity)
  {
  }

  // ------------------------------------------------------- attach and detach

  /** Attaching with the SDK ready brings the layer to a synchronised state with one
      widget whose last instruction is the host's center. */
  lemma AttachWithReadySdk(s: LayerState, vp: Viewport, sdk: Sdk)
    requires Valid(s)
    requires sdk.mapReady && (WantsTraffic(s) ==> sdk.trafficReady)
    ensures var (t, ok) := AfterAdd(s, vp, sdk, true);
      ok && t.hasHandle && t.attached && t.containerSize == Some(vp.size) &&
      multiset(t.trace)[CreateWidget] == 1 &&
      t.trace[|t.trace| - 1] == SetCenter(vp.center, vp.zoom)
  {
    AddPreservesValid(s, vp, sdk, true);
    var c := AfterInitContainer(s, vp.size);
    InitContainerEffects(s, vp.size);
    var p := AfterInitMapObject(c, sdk, vp);
    if !c.hasHandle {
      InitMapObjectSequence(c, sdk, vp);
    }
    assert p.hasHandle;
    UpdateRecentersOnce(AfterInitContainer(p, vp.size), vp, Bool(true));
  }

  /** Detaching and re-attaching keeps the one widget, re-attaches the container and
      resynchronises once more. */
  lemma ReattachKeepsWidget(s: LayerState, vp: Viewport, sdk: Sdk)
    requires Valid(s) && s.hasHandle
    ensures var (removed, removedOk) := AfterRemove(s);
      var (t, ok) := AfterAdd(removed, vp, sdk, true);
      removedOk && !removed.attached && ok && t.attached && t.hasHandle &&
      multiset(t.trace)[CreateWidget] == 1 &&
      Centers(t.trace) == Centers(s.trace) + [(vp.center, vp.zoom)] &&
      multiset(t.trace)[FitToViewport] == multiset(s.trace)[FitToViewport] + 1
  {
    var removed := AfterRemove(s).0;
    RemovePreservesValid(s);
    AddPreservesValid(removed, vp, sdk, true);
    var c := AfterInitContainer(AfterInitContainer(removed, vp.size), vp.size);
    ForcedUpdateRefits(c, vp);
  }
}
