/** Resolution of the map-type argument of the layer (`_getPossibleMapType`). */
module MapTypes {
  import opened JsValues

  /** The alias table `possibleShortMapTypes`, in declaration order: (key, short name). */
  const ShortMapTypes: seq<(string, string)> := [
    ("schemaMap", "map"),
    ("satelliteMap", "satellite"),
    ("hybridMap", "hybrid"),
    ("publicMap", "publicMap"),
    ("publicMapInHybridView", "publicMapHybrid"),
    ("overlay", "overlay")
  ]

  const Prefix: string := "yandex#"

  /** What every unrecognised argument resolves to. */
  const DefaultMapType: string := "yandex#map"

  /** `s` is one of the table's values (a short name such as "satellite"). */
  predicate IsShortName(s: string) {
    exists i :: 0 <= i < |ShortMapTypes| && ShortMapTypes[i].1 == s
  }

  /** `s` is a fully qualified name: the prefix followed by a short name. */
  predicate IsQualified(s: string) {
    exists i :: 0 <= i < |ShortMapTypes| && s == Prefix + ShortMapTypes[i].1
  }

  /** The closed form of the resolution: a short name gains the prefix, a qualified
      name stands for itself, and everything else becomes the default. */
  function Resolve(mapType: Js): (r: string)
    ensures IsQualified(r)
    ensures mapType.Str? && IsQualified(mapType.s) ==> r == mapType.s
  {
    assert DefaultMapType == Prefix + ShortMapTypes[0].1;
    if mapType.Str? && IsShortName(mapType.s) then
      Prefix + mapType.s
    else if mapType.Str? && IsQualified(mapType.s) then
      mapType.s
    else
      DefaultMapType
  }

  /** Every short name is one of the six listed values. */
  lemma ShortNameCases(s: string)
    requires IsShortName(s)
    ensures s == "map" || s == "satellite" || s == "hybrid" || s == "publicMap"
         || s == "publicMapHybrid" || s == "overlay"
  {
    var i :| 0 <= i < |ShortMapTypes| && ShortMapTypes[i].1 == s;
    assert i in {0, 1, 2, 3, 4, 5};
  }

  /** No short name carries the prefix's '#', so no string is both a short name and
      a qualified name. */
  lemma ShortNamesAreUnqualified(s: string)
    requires IsShortName(s)
    ensures '#' !in s && !IsQualified(s)
  {
    ShortNameCases(s);
  }

  /** Anything that is not a string resolves to the default. */
  lemma NonStringResolvesToDefault(mapType: Js)
    requires !mapType.Str?
    ensures Resolve(mapType) == DefaultMapType
  {
  }

  /** Every value of the alias table resolves to the prefix followed by that value. */
  lemma ShortNamesResolve(i: int)
    requires 0 <= i < |ShortMapTypes|
    ensures Resolve(Str(ShortMapTypes[i].1)) == Prefix + ShortMapTypes[i].1
  {
  }

  /** A string resolves to itself exactly when it is a qualified name. */
  lemma FixedPointsAreQualified(s: string)
    ensures Resolve(Str(s)) == s <==> IsQualified(s)
  {
    if IsShortName(s) {
      ShortNamesAreUnqualified(s);
      assert Prefix + s != s by {
        assert |Prefix + s| > |s|;
      }
    }
  }

  /** The keys of the table that are not also values ("schemaMap", "satelliteMap",
      "hybridMap", "publicMapInHybridView") and the empty string resolve to the default. */
  lemma KeysResolveToDefault(s: string)
    requires s in {"schemaMap", "satelliteMap", "hybridMap", "publicMapInHybridView", ""}
    ensures Resolve(Str(s)) == DefaultMapType
  {
    if IsShortName(s) {
      ShortNameCases(s);
    }
    if IsQualified(s) {
      var i :| 0 <= i < |ShortMapTypes| && s == Prefix + ShortMapTypes[i].1;
      assert |s| >= 7 && s[..7] == Prefix;
    }
  }

  /** Resolving an already resolved value changes nothing. */
  lemma ResolveIdempotent(mapType: Js)
    ensures Resolve(Str(Resolve(mapType))) == Resolve(mapType)
  {
    FixedPointsAreQualified(Resolve(mapType));
  }

  /** The loop of `_getPossibleMapType`: scan the table in order; a short name
      resolves to the prefix plus itself and stops the scan, a qualified name is
      remembered as the result and the scan goes on. */
  method GetPossibleMapType(mapType: Js) returns (result: string)
    ensures result == Resolve(mapType)
  {
    result := DefaultMapType;
    if !mapType.Str? {
      return;
    }
    var s := mapType.s;
    var i := 0;
    while i < |ShortMapTypes|
      invariant 0 <= i <= |ShortMapTypes|
      invariant forall j :: 0 <= j < i ==> ShortMapTypes[j].1 != s
      invariant result == s || result == DefaultMapType
      invariant result == s <==> s == DefaultMapType || exists j :: 0 <= j < i && s == Prefix + ShortMapTypes[j].1
    {
      var value := ShortMapTypes[i].1;
      if s == value {
        result := Prefix + s;
        break;
      }
      if s == Prefix + value {
        result := s;
      }
      i := i + 1;
    }
  }
}
