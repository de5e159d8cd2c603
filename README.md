# Leaflet Yandex layer — a verified model

`L.Yandex` is a Leaflet layer (`layer/tile/Yandex.js`) that shows a Yandex Maps widget
inside a Leaflet map. It turns a map-type argument into a Yandex map-type name. It creates a
container element and, once the SDK is loaded, one widget. It then keeps the widget's size,
center and zoom in step with the host map. It also implements Leaflet's layer interface:
attribution, opacity, add and remove.

The model has five modules:

- `JsValues` (`js_values.dfy`): the JavaScript values the layer looks at (`typeof`, truthiness,
  `< 1` on the opacity, property reads) and the `TypeError` it can raise.
- `MapTypes` (`map_types.dfy`): the alias table `possibleShortMapTypes` and the map-type
  resolution `_getPossibleMapType`. `Resolve` is the closed form. `GetPossibleMapType` is the
  source's loop, with its `break`, proved equal to it.
- `LayerOptions` (`layer_options.dfy`): `initialize`. It decides where the type comes from,
  merges the options over the class defaults and falls back on `options.type`. It is modelled
  as the function `Initialize`, which gives the new layer's options and `_type`. A `null`
  first argument gives `Failure(TypeError)`, because `typeof null === 'object'` and
  `null.type` throws.
- `Lifecycle` (`lifecycle.dfy`): the layer's state as a value, `LayerState`. Each operation
  is a function of it: `AfterSetOpacity`, `AfterInitContainer`, `AfterResize`, `AfterUpdate`,
  `AfterInitMapObject`, `AfterAdd`, `AfterRemove`. This module also holds the invariant
  `Valid` (one widget and one ready event at most, created together) and the lemmas about
  resynchronisation and the widget lifecycle. SDK calls and the fired `MapObjectInitialized`
  event go into one ordered `trace`.
- `YandexLayer` (`yandex_layer.dfy`): the class `Layer`, with the fields the source changes in
  place, and the class `HostMap`: its size, center and zoom, its control corners, the
  corner margin and the subscribed listeners. Each method follows the JavaScript control
  flow, with early returns, and has a contract that ties the new state to the matching
  `Lifecycle` function. Where the JavaScript would throw, a method returns `ok == false`
  and keeps the effects made up to that point.

Two scenario methods in `yandex_layer.dfy` run the class through whole sequences:
`DeferredStartScenario` adds a layer before the SDK has loaded, moves the map, and completes the
widget on the load continuation. `ReattachScenario` removes and re-adds a layer whose widget
exists, keeping that widget and one subscription per event.

The SDK is represented by its readiness, `Sdk(mapReady, trafficReady)`, which is passed to
`InitMapObject` and `OnAdd`. The asynchronous load continuation is modelled as the caller
calling `InitMapObject` again once the flag has flipped.

Behaviours of the code that the model keeps as written:

- A throttled `_limitedUpdate` is built (line 67) but never subscribed: `move` runs the
  unthrottled `_update` (line 68), once per event.
- `setOpacity` touches the container only below 1 (line 94), so setting 1 after 0.5 leaves
  the container at 0.5 (`FullOpacityKeepsEarlierTransparency`).
- `onRemove` resets the margin only when the host has control corners (line 83), while
  `onAdd` sets it without checking (line 70) and throws when they are missing.
- `viewreset` runs `_reset` (line 150), which sizes the container itself (line 113). An
  unforced update that follows then sees no size change (line 165) and does not refit the
  widget (`ResetThenUpdateDoesNotRefit`).

## Model

| member | source | states |
|---|---|---|
| MapTypes.Resolve | layer/tile/Yandex.js:27-42 | the result is always "yandex#" followed by a value of the alias table, and a qualified string resolves to itself |
| MapTypes.GetPossibleMapType | layer/tile/Yandex.js:27-42 | the loop over the table, with the early `break` on a short name and no `break` on a qualified name, returns exactly `Resolve` of its argument |
| MapTypes.NonStringResolvesToDefault | layer/tile/Yandex.js:28-31 | any non-string argument resolves to "yandex#map" |
| MapTypes.ShortNamesResolve | layer/tile/Yandex.js:18-36 | every value of the table resolves to "yandex#" followed by that value |
| MapTypes.FixedPointsAreQualified | layer/tile/Yandex.js:32-39 | a string resolves to itself if and only if it is "yandex#" followed by a table value |
| MapTypes.KeysResolveToDefault | layer/tile/Yandex.js:18-41 | the table keys that are not also values, and the empty string, resolve to "yandex#map" |
| MapTypes.ResolveIdempotent | layer/tile/Yandex.js:27-42 | resolving a resolved name gives the same name |
| MapTypes.ShortNameCases | layer/tile/Yandex.js:18-25 | the short names are exactly map, satellite, hybrid, publicMap, publicMapHybrid and overlay |
| MapTypes.ShortNamesAreUnqualified | layer/tile/Yandex.js:18-25 | no short name contains '#', so no string matches both tests of the loop |
| LayerOptions.Initialize | layer/tile/Yandex.js:46-54 | fails exactly for a null first argument; an object argument becomes the options and its `type` the map type; otherwise the options are merged over the defaults and a falsy type falls back on `options.type`; the stored type is always a qualified name |
| LayerOptions.StringTypeWins | layer/tile/Yandex.js:53 | a non-empty string type is resolved whatever the options say |
| LayerOptions.FalsyTypeFallsBack | layer/tile/Yandex.js:53 | a falsy non-object type is replaced by the `type` option |
| LayerOptions.Attribution | layer/tile/Yandex.js:88-90 | the configured `attribution` option, and `undefined` when the options lack it |
| LayerOptions.ConfiguredAttribution | layer/tile/Yandex.js:10-16 | for every non-null first argument, `getAttribution` (lines 88-90) returns the attribution given in the options object (the first argument when it is an object, else the second), or the default empty string |
| LayerOptions.HybridScenario | layer/tile/Yandex.js:46-53 | `{type: "hybrid"}` gives the map type "yandex#hybrid" |
| Lifecycle.Initial | layer/tile/Yandex.js:46-54 | a new layer has no container and no widget, has pushed no center, and satisfies the invariant once its options hold an opacity |
| Lifecycle.AfterSetOpacity | layer/tile/Yandex.js:92-97 | the option is recorded; the container's opacity changes exactly when the value is below 1 and a container exists; the call throws exactly when it is below 1 and there is no container; nothing else changes |
| Lifecycle.AfterInitContainer | layer/tile/Yandex.js:104-114 | afterwards a container exists, is attached and has the host's size; an existing container keeps its opacity, a new one gets the configured opacity when below 1; the options, the type, the widget and the trace are unchanged |
| Lifecycle.AfterResize | layer/tile/Yandex.js:163-169 | the container ends at the host's size, the trace gains at most one refit, and the options, the widget and the container's opacity are unchanged |
| Lifecycle.AfterUpdate | layer/tile/Yandex.js:154-161 | the options, the widget and the container's presence, attachment and opacity are unchanged, the trace only grows at its end, and with a widget the container has the host's size and the last call recenters on the host's center and zoom |
| Lifecycle.AfterInitMapObject | layer/tile/Yandex.js:116-148 | the widget exists afterwards if and only if it existed before or `ymaps.Map` (and the traffic control when traffic is on) was loaded; the trace only grows at its end; a new widget ends with the ready event; options and container are unchanged |
| Lifecycle.AfterCreateWidget | layer/tile/Yandex.js:132-141 | the handle exists; the type becomes the overlay type exactly when `overlay` is set, and otherwise stays `_type`; the widget's background becomes transparent for an overlay (line 139); the trace gains the widget creation first and the `setType` of that type last; the options and container are unchanged |
| Lifecycle.AfterAdd | layer/tile/Yandex.js:56-74 | the call throws exactly without control corners; the container ends attached at the host's size; the trace only grows at its end; the widget exists if and only if it did before or the SDK parts it needs are loaded |
| Lifecycle.AfterRemove | layer/tile/Yandex.js:76-86 | the call throws exactly without a container; on success the container is detached; nothing else changes |
| Lifecycle.CentersAppend | layer/tile/Yandex.js:160 | the recenter log of two traces joined is the two logs joined |
| Lifecycle.CentersOfOthers | layer/tile/Yandex.js:160 | only `setCenter` calls enter the recenter log |
| Lifecycle.SetOpacityPreservesValid | layer/tile/Yandex.js:92-97 | `setOpacity` keeps the layer invariant |
| Lifecycle.InitContainerPreservesValid | layer/tile/Yandex.js:104-114 | `_initContainer` keeps the layer invariant |
| Lifecycle.UpdatePreservesValid | layer/tile/Yandex.js:154-169 | `_update` keeps the layer invariant |
| Lifecycle.InitMapObjectPreservesValid | layer/tile/Yandex.js:116-148 | `_initMapObject` keeps the invariant: the widget count and the ready-event count both equal 1 if the handle exists, else 0 |
| Lifecycle.CreationCountsOnce | layer/tile/Yandex.js:132-147 | a successful initialisation adds exactly one widget and one ready event |
| Lifecycle.CreateWidgetCounts | layer/tile/Yandex.js:132-141 | the construction step adds one widget and fires nothing |
| Lifecycle.UpdateKeepsCounts | layer/tile/Yandex.js:154-169 | `_update` creates no widget and fires no ready event |
| Lifecycle.AddPreservesValid | layer/tile/Yandex.js:56-74 | `onAdd` keeps the layer invariant |
| Lifecycle.RemovePreservesValid | layer/tile/Yandex.js:76-86 | `onRemove` keeps the layer invariant |
| Lifecycle.AtMostOneWidget | layer/tile/Yandex.js:116-148 | in every valid state at most one widget exists and the ready event fired exactly as often as a widget was created |
| Lifecycle.ResizeSkipsExactlyWhenUnchanged | layer/tile/Yandex.js:163-169 | `_resize` changes nothing if and only if the container already has the host's size and `force` is not `true`; otherwise it sets that size and refits exactly once |
| Lifecycle.EventObjectDoesNotForce | layer/tile/Yandex.js:163-169 | the `move` event object given as `force` does not force a resize |
| Lifecycle.UpdateWithoutHandleIsNoOp | layer/tile/Yandex.js:154-155 | `_update` before the widget exists changes nothing |
| Lifecycle.UpdateRecentersOnce | layer/tile/Yandex.js:154-161 | with a widget, every `_update` pushes the host's center and zoom exactly once, as its last call, whatever `force` is |
| Lifecycle.SecondUpdateOnlyRecenters | layer/tile/Yandex.js:154-169 | a second update with an unchanged size and no `true` force refits nothing but recenters once |
| Lifecycle.ForcedUpdateRefits | layer/tile/Yandex.js:154-169 | `_update(true)` always refits once and recenters once |
| Lifecycle.ResetThenUpdateDoesNotRefit | layer/tile/Yandex.js:150-169 | after `viewreset` has resized the container, an unforced update does not refit the widget |
| Lifecycle.InitMapObjectIdempotent | layer/tile/Yandex.js:116-117 | in every state where the handle exists, whatever `_update` or `_reset` did since, `_initMapObject` changes nothing |
| Lifecycle.InitMapObjectWaitsForSdk | layer/tile/Yandex.js:119-130 | while `ymaps.Map`, or the traffic control when traffic is on, is missing, only one load request is added and no widget is created |
| Lifecycle.InitMapObjectSequence | layer/tile/Yandex.js:131-147 | with the SDK ready, the trace grows by: create, traffic control if asked, `setType` of the overlay type if asked (else of `_type`), refit, recenter, the ready event; an overlay's background is transparent |
| Lifecycle.RetryCreatesOneWidget | layer/tile/Yandex.js:116-148 | on a layer without traffic, a call that waits for the SDK and a retry after the load create exactly one widget and fire one ready event; later retries change nothing |
| Lifecycle.TrafficLayerWaitsTwice | layer/tile/Yandex.js:119-130 | with traffic on, the call before `package.map` has loaded and the retry after it each add only a load request, first for the map and then for the traffic control, and create nothing |
| Lifecycle.RetryWithTrafficWaitsTwice | layer/tile/Yandex.js:116-148 | with traffic on, after both waits the retry with both packages loaded creates exactly one widget and fires one ready event |
| Lifecycle.SetOpacityEffects | layer/tile/Yandex.js:92-97 | the opacity option is always recorded; the container changes only below 1; the call throws exactly when that needs a missing container |
| Lifecycle.FullOpacityKeepsEarlierTransparency | layer/tile/Yandex.js:92-97 | setting 0.5 and then 1 leaves the container at 0.5 |
| Lifecycle.InitContainerEffects | layer/tile/Yandex.js:104-114 | a container is created, with the configured opacity, only if none exists; every call attaches it and sets the host's size |
| Lifecycle.AttachWithReadySdk | layer/tile/Yandex.js:56-74 | adding the layer with the SDK ready leaves one widget, an attached container of the host's size, and the host's center as the last call |
| Lifecycle.ReattachKeepsWidget | layer/tile/Yandex.js:56-86 | detaching and re-attaching keeps the one widget, re-attaches the container, refits once and recenters once |
| Lifecycle.AddSteps | layer/tile/Yandex.js:56-74 | on a host with control corners, `onAdd` is container, widget, reset, then a forced update |
| Lifecycle.AddStepsWithoutCorners | layer/tile/Yandex.js:56-70 | on a host without control corners, `onAdd` is container then widget, and throws at line 70 |
| YandexLayer.Layer.constructor | layer/tile/Yandex.js:46-54 | a new layer holds the initialised options and type, with no container, no widget and an empty trace |
| YandexLayer.Layer.SetOpacity | layer/tile/Yandex.js:92-97 | the new state and the throw are those of `AfterSetOpacity` |
| YandexLayer.Layer.InitContainer | layer/tile/Yandex.js:104-114 | the new state is `AfterInitContainer` of the old one at the host's size |
| YandexLayer.Layer.Reset | layer/tile/Yandex.js:150-152 | the `viewreset` handler does exactly what `_initContainer` does |
| YandexLayer.Layer.Resize | layer/tile/Yandex.js:163-169 | the new state is `AfterResize` of the old one at the host's size |
| YandexLayer.Layer.Update | layer/tile/Yandex.js:154-161 | the new state is `AfterUpdate` at the host's viewport, and without a host nothing changes |
| YandexLayer.Layer.InitMapObject | layer/tile/Yandex.js:116-148 | the new state is `AfterInitMapObject` of the old one, and the invariant holds after it |
| YandexLayer.Layer.BuildMapObject | layer/tile/Yandex.js:131-147 | the new state is the construction step, then `_update(true)`, then the ready event |
| YandexLayer.Layer.CreateMapObject | layer/tile/Yandex.js:132-141 | the new state is `AfterCreateWidget` of the old one |
| YandexLayer.Layer.Prepare | layer/tile/Yandex.js:57-62 | the host is remembered, then the container and the widget are initialised |
| YandexLayer.Layer.ResetAndRefit | layer/tile/Yandex.js:72-73 | the new state is `_initContainer` at the host's size followed by `_update(true)`, and the invariant holds after it |
| YandexLayer.Layer.OnAdd | layer/tile/Yandex.js:56-74 | both listeners are subscribed (a set, so no duplicates); the margin becomes "3em" exactly when control corners exist; the layer state is `AfterAdd`; the host's viewport is unchanged |
| YandexLayer.Layer.GetAttribution | layer/tile/Yandex.js:88-90 | the `attribution` option of the layer; no contract of its own, see `LayerOptions.Attribution` |
| YandexLayer.Layer.OnRemove | layer/tile/Yandex.js:76-86 | both listeners are removed from the remembered host `_map`, and the argument's listeners are untouched when it is another map; the margin of the argument becomes "0em" only when it has control corners, and the remembered host's margin, corners and viewport are untouched when it is another map; without a container the call throws, and neither the layer nor the listeners of either map change |

## Left out

- DOM work: creating the element, class names, the `L.Util.stamp` id, `appendChild` and
  `remove`. These are reduced to the flags `hasContainer` and `attached`. The container's
  width and height strings are an integer pair, so `setElementSize` (lines 99-102) is folded
  into `containerSize`.
- The Yandex SDK itself: `ymaps.load`, `ymaps.Map`, `MapType`, `TrafficControl`,
  `fitToViewport`, `setCenter`. These are foreign calls. Their readiness is a parameter and
  the calls are entries of the trace. The widget's construction arguments (center [0, 0],
  zoom 0, no behaviours or controls) and the traffic control's `{shown: true}` are not
  recorded.
- The asynchronous load continuation: the caller calls `InitMapObject` again, as described
  above.
- Leaflet's `removeLayer` clears the layer's `_map` after `onRemove`; the model keeps
  `host`. So in the model a load continuation that arrives after removal builds the widget
  and fires `MapObjectInitialized`. In the code it sets `_yandex` (line 143), then throws in
  `_resize` at `this._map.getSize()` (line 164), so the event (line 147) is never fired, not
  even after a re-add, since line 117 then returns early. The invariant `Valid` (one ready
  event per widget) relies on the host never being cleared.
- The throttle behind `_limitedUpdate` (line 67): it is time-based and never subscribed.
- Leaflet's event emitter: listeners are a set of (event, layer) pairs, matching Leaflet's
  refusal of duplicate (function, context) registrations. The fired event is a trace entry.
- Latitude, longitude and zoom are passed through as reals. No geodesy is done on them.
- JsValues.LessThanOne: strings are not converted to numbers, so "0.5" < 1 is not modelled,
  and arrays compare like other objects.
- JsValues.Truthy: NaN is not a value of the model.
- LayerOptions.Initialize: a string given as the second argument would have its characters
  copied under index keys by `L.Util.setOptions`; the model copies nothing from a
  non-object. The options inherited from `L.Layer` (`pane`, `bubblingMouseEvents`) are not
  part of the defaults, because the layer never reads them.
- `L.yandex` (lines 172-174) is `new L.Yandex`: `Initialize` followed by the constructor.
- `minZoom`, `maxZoom` and `insertAtTheBottom` are stored but never used by this code.
- YandexLayer.Layer.GetAttribution has no contract of its own. It returns
  `LayerOptions.Attribution` of the layer's options, whose contract states the result.
