/** The layer object and the host map it is added to. Each method of `Layer` follows
    the control flow of its JavaScript counterpart and is proved to change the
    layer's state exactly as the matching function of module Lifecycle says. */
module YandexLayer {
  import opened JsValues
  import opened Lifecycle
  import LayerOptions

  /** The two host events the layer listens to. */
  datatype HostEvent = ViewReset | Move

  /** A subscription: `viewreset` runs `_reset`, `move` runs `_update`, and `layer` is
      the context object, which Leaflet uses with the function to tell listeners apart. */
  datatype Listener = Listener(event: HostEvent, layer: object)

  /** The parts of a Leaflet map the layer reads or writes. */
  class HostMap {
    var size: Size
    var center: LatLng
    var zoom: real
    var hasCorners: bool         // `_controlCorners` exists
    var cornerMargin: string     // `marginBottom` of the bottom-right control corner
    var listeners: set<Listener>

    constructor (size: Size, center: LatLng, zoom: real, hasCorners: bool)
      ensures View() == Viewport(size, center, zoom) && this.hasCorners == hasCorners
      ensures cornerMargin == "" && listeners == {}
    {
      this.size, this.center, this.zoom := size, center, zoom;
      this.hasCorners := hasCorners;
      cornerMargin := "";
      listeners := {};
    }

    /** `getSize()`, `getCenter()` and `getZoom()` together. */
    function View(): Viewport
      reads this
    {
      Viewport(size, center, zoom)
    }
  }

  class Layer {
    var options: map<string, Js>
    var mapType: MapTypeValue
    var host: HostMap?               // `_map`, set by `onAdd`
    var insertAtTheBottom: Js
    var hasContainer: bool
    var attached: bool
    var containerSize: Option<Size>
    var containerOpacity: Option<Js>
    var transparentBackground: bool
    var hasHandle: bool
    var trace: seq<Effect>

    function State(): LayerState
      reads this
    {
      LayerState(options, mapType, hasContainer, attached, containerSize, containerOpacity,
                 transparentBackground, hasHandle, trace)
    }

    /** The shape the methods rely on: a container exists only once a host map is known. */
    ghost predicate Linked()
      reads this
    {
      Coherent(State()) && (hasContainer ==> host != null)
    }

    ghost predicate Valid()
      reads this
    {
      Linked() && Lifecycle.Valid(State())
    }

    /** `new L.Yandex(type, options)` once `initialize` has produced `config`. */
    constructor (config: LayerOptions.Config)
      requires "opacity" in config.options
      ensures Valid() && host == null
      ensures State() == Initial(config.options, config.mapType)
    {
      options := config.options;
      mapType := Named(config.mapType);
      host := null;
      insertAtTheBottom := Undefined;
      hasContainer, attached := false, false;
      containerSize, containerOpacity := None, None;
      transparentBackground, hasHandle := false, false;
      trace := [];
    }

    /** `getAttribution()`. */
    function GetAttribution(): Js
      reads this
    {
      LayerOptions.Attribution(options)
    }

    /** `setOpacity(opacity)`; `ok == false` where the JavaScript throws. */
    method SetOpacity(opacity: Js) returns (ok: bool)
      requires Linked()
      modifies this
      ensures Linked() && host == old(host)
      ensures (State(), ok) == AfterSetOpacity(old(State()), opacity)
    {
      options := options["opacity" := opacity];
      if LessThanOne(opacity) {
        if !hasContainer {
          return false;
        }
        containerOpacity := Some(opacity);
      }
      ok := true;
    }

    /** `_initContainer()`. */
    method InitContainer()
      requires Linked() && host != null
      modifies this
      ensures Linked() && host == old(host) && hasContainer
      ensures State() == AfterInitContainer(old(State()), host.size)
    {
      if !hasContainer {
        hasContainer := true;
        var _ := SetOpacity(Lookup(options, "opacity"));
      }
      attached := true;
      containerSize := Some(host.size);
    }

    /** `_reset()`, the `viewreset` handler. */
    method Reset()
      requires Linked() && host != null
      modifies this
      ensures Linked() && host == old(host) && hasContainer
      ensures State() == AfterInitContainer(old(State()), host.size)
    {
      InitContainer();
    }

    /** `_resize(force)`. */
    method Resize(force: Js)
      requires Linked() && hasHandle
      modifies this
      ensures Linked() && host == old(host)
      ensures State() == AfterResize(old(State()), host.size, force)
    {
      var size := host.size;
      if containerSize == Some(size) && force != Bool(true) {
        return;
      }
      containerSize := Some(size);
      trace := trace + [FitToViewport];
    }

    /** `_update(force)`, also the `move` handler (the event object is `force`). */
    method Update(force: Js)
      requires Linked()
      modifies this
      ensures Linked() && host == old(host)
      ensures host != null ==> State() == AfterUpdate(old(State()), host.View(), force)
      ensures host == null ==> State() == old(State())
    {
      if !hasHandle {
        return;
      }
      Resize(force);
      trace := trace + [SetCenter(host.center, host.zoom)];
    }

    /** `_initMapObject()`. A load request made here is answered by calling this
        method again once `sdk` reports the package as ready. */
    method InitMapObject(sdk: Sdk)
      requires Valid() && hasContainer
      modifies this
      ensures Valid() && host == old(host) && host != null
      ensures State() == AfterInitMapObject(old(State()), sdk, host.View())
    {
      InitMapObjectPreservesValid(State(), sdk, host.View());
      if hasHandle {
        return;
      }
      if !sdk.mapReady {
        trace := trace + [LoadPackages(["package.map"])];
        return;
      }
      if Truthy(Lookup(options, "traffic")) && !sdk.trafficReady {
        trace := trace + [LoadPackages(["package.traffic", "package.controls"])];
        return;
      }
      BuildMapObject();
    }

    /** The part of `_initMapObject` that runs once the SDK is ready: build the
        widget, update with force, fire the ready event. */
    method BuildMapObject()
      requires Linked() && hasContainer && host != null
      modifies this
      ensures Linked() && host == old(host)
      ensures var u := AfterUpdate(AfterCreateWidget(old(State())), host.View(), Bool(true));
        State() == u.(trace := u.trace + [MapObjectInitialized])
    {
      CreateMapObject();
      Update(Bool(true));
      trace := trace + [MapObjectInitialized];
    }

    /** The construction part of `_initMapObject`, from `new ymaps.Map` to `setType`. */
    method CreateMapObject()
      requires Linked() && hasContainer
      modifies this
      ensures Linked() && host == old(host)
      ensures State() == AfterCreateWidget(old(State()))
    {
      trace := trace + [CreateWidget];
      if Truthy(Lookup(options, "traffic")) {
        trace := trace + [AddTrafficControl];
      }
      if Truthy(Lookup(options, "overlay")) {
        mapType := OverlayType;
        transparentBackground := true;
      }
      trace := trace + [SetType(mapType)];
      hasHandle := true;
    }

    /** `onAdd(map, insertAtTheBottom)`; `ok == false` where the JavaScript throws
        because the host has no control corners. */
    method OnAdd(m: HostMap, insertAtTheBottom: Js, sdk: Sdk) returns (ok: bool)
      requires Valid()
      modifies this, m
      ensures Valid() && host == m
      ensures (State(), ok) == AfterAdd(old(State()), old(m.View()), sdk, old(m.hasCorners))
      ensures m.listeners == old(m.listeners) + {Listener(ViewReset, this), Listener(Move, this)}
      ensures m.cornerMargin == if ok then "3em" else old(m.cornerMargin)
      ensures m.View() == old(m.View()) && m.hasCorners == old(m.hasCorners)
    {
      ghost var before := State();
      ghost var vp := m.View();
      Prepare(m, insertAtTheBottom, sdk);
      ghost var prepared := State();
      m.listeners := m.listeners + {Listener(ViewReset, this)};
      m.listeners := m.listeners + {Listener(Move, this)};
      if !m.hasCorners {
        AddStepsWithoutCorners(before, vp, sdk, prepared);
        return false;
      }
      m.cornerMargin := "3em";
      ResetAndRefit();
      ok := true;
      AddSteps(before, vp, sdk, AfterInitContainer(before, vp.size), prepared, AfterInitContainer(prepared, vp.size));
    }

    /** The last lines of `onAdd`: `_reset()`, then `_update(true)`. */
    method ResetAndRefit()
      requires Valid() && host != null
      modifies this
      ensures Valid() && host == old(host)
      ensures State() == AfterUpdate(AfterInitContainer(old(State()), host.size), host.View(), Bool(true))
    {
      ghost var before := State();
      Reset();
      ghost var reset := State();
      InitContainerPreservesValid(before, host.size);
      UpdatePreservesValid(reset, host.View(), Bool(true));
      Update(Bool(true));
    }

    /** The first lines of `onAdd`: remember the host, then make the container and
        the widget. */
    method Prepare(m: HostMap, insertAtTheBottom: Js, sdk: Sdk)
      requires Valid()
      modifies this
      ensures Valid() && host == m && hasContainer
      ensures State() == AfterInitMapObject(AfterInitContainer(old(State()), m.size), sdk, m.View())
    {
      ghost var before := State();
      host := m;
      this.insertAtTheBottom := insertAtTheBottom;
      InitContainer();
      ghost var contained := State();
      assert contained == AfterInitContainer(before, m.size);
      InitContainerPreservesValid(before, m.size);
      InitMapObject(sdk);
      assert State() == AfterInitMapObject(contained, sdk, m.View());
    }

    /** `onRemove(m)`: listeners come off `_map`, the margin is reset on `m`;
        `ok == false` where the JavaScript throws for want of a container. */
    method OnRemove(m: HostMap) returns (ok: bool)
      requires Valid()
      modifies this, host, m
      ensures Valid() && host == old(host)
      ensures (State(), ok) == AfterRemove(old(State()))
      ensures ok ==> host.listeners == old(host.listeners) - {Listener(ViewReset, this), Listener(Move, this)}
      ensures m.cornerMargin == if ok && old(m.hasCorners) then "0em" else old(m.cornerMargin)
      ensures !ok ==> m.listeners == old(m.listeners)
      ensures m.View() == old(m.View()) && m.hasCorners == old(m.hasCorners)
      ensures host != null && host != m ==>
        host.View() == old(host.View()) && host.hasCorners == old(host.hasCorners) &&
        host.cornerMargin == old(host.cornerMargin)
      ensures host != m ==> m.listeners == old(m.listeners)
      ensures !ok && host != null ==> host.listeners == old(host.listeners)
    {
      if !hasContainer {
        return false;
      }
      attached := false;
      host.listeners := host.listeners - {Listener(ViewReset, this)};
      host.listeners := host.listeners - {Listener(Move, this)};
      if m.hasCorners {
        m.cornerMargin := "0em";
      }
      ok := true;
    }
  }

  /** A layer added before the SDK has loaded waits, ignores moves, and is completed
      by the load continuation. */
  method DeferredStartScenario() {
    var config := LayerOptions.Initialize(Str("satellite"), Undefined);
    var layer := new Layer(config.value);
    var m := new HostMap(Size(800, 600), LatLng(55.75, 37.62), 10.0, true);
    var ok := layer.OnAdd(m, Bool(false), Sdk(false, false));
    assert !layer.hasHandle;
    layer.Update(Obj(map[]));
    layer.InitMapObject(Sdk(true, false));
    assert layer.hasHandle;
  }

  /** Detaching and re-attaching a layer whose widget exists reuses that widget and
      leaves exactly one subscription per event. */
  method ReattachScenario(layer: Layer, m: HostMap)
    requires layer.Valid() && layer.hasHandle && layer.host == m
    modifies layer, m
  {
    ghost var subscribed := {Listener(ViewReset, layer), Listener(Move, layer)};
    ghost var before := m.listeners;
    var ok := layer.OnRemove(m);
    assert ok && !layer.attached;
    ok := layer.OnAdd(m, Bool(false), Sdk(true, false));
    assert ok == m.hasCorners && layer.attached && layer.hasHandle;
    assert m.listeners == (before - subscribed) + subscribed;
    AtMostOneWidget(layer.State());
  }
}
