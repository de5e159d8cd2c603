/** Construction of the layer (`initialize`): option merging and the initial map type. */
module LayerOptions {
  import opened JsValues
  import opened MapTypes

  /** The class-level defaults of `options`. */
  const DefaultOptions: map<string, Js> := map[
    "minZoom" := Num(0.0),
    "maxZoom" := Num(18.0),
    "attribution" := Str(""),
    "opacity" := Num(1.0),
    "traffic" := Bool(false)
  ]

  /** What `initialize` leaves on a new layer: its merged options and `_type`. */
  datatype Config = Config(options: map<string, Js>, mapType: string)

  /** `initialize(type, options)`. An object first argument is the options and its
      `type` property the map type (reading it off `null` throws); the options are
      copied over the defaults; a falsy type falls back to `options.type`; and the
      chosen value is resolved. */
  function Initialize(mapType: Js, options: Js): (r: Result<Config>)
    ensures r.Failure? <==> mapType == Null
    ensures r.Success? ==> IsQualified(r.value.mapType)
    ensures r.Success? ==> DefaultOptions.Keys <= r.value.options.Keys
    ensures mapType.Obj? ==>
      r == Success(Config(DefaultOptions + mapType.props, Resolve(Lookup(mapType.props, "type"))))
    ensures !IsObject(mapType) ==>
      r.Success? && r.value.options == DefaultOptions + OwnProps(options) &&
      r.value.mapType == Resolve(if Truthy(mapType) then mapType else Lookup(OwnProps(options), "type"))
  {
    if mapType.Null? then
      Failure(TypeError)
    else
      var opts := if IsObject(mapType) then mapType else options;
      var given := if IsObject(mapType) then Lookup(mapType.props, "type") else mapType;
      var merged := DefaultOptions + OwnProps(opts);
      var chosen := if Truthy(given) then given else Lookup(merged, "type");
      assert Lookup(merged, "type") == Lookup(OwnProps(opts), "type");
      Success(Config(merged, Resolve(chosen)))
  }

  /** `getAttribution`: the configured attribution. */
  function Attribution(options: map<string, Js>): (r: Js)
    ensures "attribution" in options ==> r == options["attribution"]
    ensures "attribution" !in options ==> r.Undefined?
  {
    Lookup(options, "attribution")
  }

  /** The attribution of a new layer is the one given in its options (the first argument
      when that is an object), or the empty string. */
  lemma ConfiguredAttribution(mapType: Js, options: Js)
    requires !mapType.Null?
    ensures Initialize(mapType, options).Success?
    ensures var given := if mapType.Obj? then mapType.props else OwnProps(options);
      Attribution(Initialize(mapType, options).value.options) ==
        if "attribution" in given then given["attribution"] else Str("")
  {
  }

  /** A non-empty string type wins over any `type` option. */
  lemma StringTypeWins(name: string, options: Js)
    requires name != ""
    ensures Initialize(Str(name), options) == Success(Config(DefaultOptions + OwnProps(options), Resolve(Str(name))))
  {
  }

  /** A falsy positional type defers to the `type` option. */
  lemma FalsyTypeFallsBack(mapType: Js, options: Js)
    requires !IsObject(mapType) && !Truthy(mapType)
    ensures Initialize(mapType, options).Success?
    ensures Initialize(mapType, options).value.mapType == Resolve(Lookup(OwnProps(options), "type"))
  {
  }

  /** `initialize({type: "hybrid"})` stores "yandex#hybrid". */
  lemma HybridScenario()
    ensures Initialize(Obj(map["type" := Str("hybrid")]), Undefined).value.mapType == "yandex#hybrid"
  {
    ShortNamesResolve(2);
  }
}
