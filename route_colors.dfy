/**
 * `getRouteColor`: a memo from route (tool) names to palette colours. The
 * first time a route is seen it gets the palette entry at `colorIndex`,
 * cyclically, and `colorIndex` moves on; a route already seen keeps its
 * colour. The dashboard and the legacy page each keep one such memo, over
 * different 20-colour palettes.
 */
module RouteColors {
  /** The dashboard's palette. */
  const RoutePalette: seq<string> := [
    "#E63946", "#2A9D8F", "#457B9D", "#E76F51", "#6A4C93",
    "#1982C4", "#6DB65B", "#1D3557", "#E8A838", "#D4687A",
    "#43AA8B", "#9B72AA", "#F3722C", "#3D85C6", "#82B366",
    "#C1447A", "#5B9279", "#A65C32", "#5A7DA8", "#B8860B"
  ]

  /** The legacy page's palette. */
  const LegacyRoutePalette: seq<string> := [
    "#FF6B6B", "#4ECDC4", "#45B7D1", "#FFA07A", "#98D8C8",
    "#F7DC6F", "#BB8FCE", "#85C1E2", "#F8B739", "#52B788",
    "#E76F51", "#2A9D8F", "#E9C46A", "#F4A261", "#264653",
    "#E63946", "#A8DADC", "#457B9D", "#1D3557", "#F1FAEE"
  ]

  /**
   * A usable palette: not empty, and every colour is truthy, so that a
   * stored colour always counts as present.
   */
  predicate GoodPalette(palette: seq<string>)
  {
    |palette| > 0 && forall i :: 0 <= i < |palette| ==> palette[i] != ""
  }

  /** Both palettes have 20 distinct, non-empty colours. */
  lemma PalettesGood()
    ensures GoodPalette(RoutePalette) && |RoutePalette| == 20
    ensures GoodPalette(LegacyRoutePalette) && |LegacyRoutePalette| == 20
    ensures forall i, j :: 0 <= i < j < 20 ==> RoutePalette[i] != RoutePalette[j]
    ensures forall i, j :: 0 <= i < j < 20 ==> LegacyRoutePalette[i] != LegacyRoutePalette[j]
  {
    RoutePaletteDistinct();
    LegacyPaletteDistinct();
  }

  lemma RoutePaletteDistinct()
    ensures forall i, j :: 0 <= i < j < 20 ==> RoutePalette[i] != RoutePalette[j]
  {
  }

  lemma LegacyPaletteDistinct()
    ensures forall i, j :: 0 <= i < j < 20 ==> LegacyRoutePalette[i] != LegacyRoutePalette[j]
  {
  }

  /** The colour the `k`-th distinct route (counted from 0) receives. */
  function Cyclic(palette: seq<string>, k: nat): (color: string)
    requires |palette| > 0
    ensures color in palette
    ensures k < |palette| ==> color == palette[k]
  {
    palette[k % |palette|]
  }

  /** With a 20-colour palette, the colours repeat every 20 distinct routes. */
  lemma CyclicPeriodic(palette: seq<string>, k: nat)
    requires |palette| == 20
    ensures Cyclic(palette, k + 20) == Cyclic(palette, k)
    ensures Cyclic(palette, k) == palette[k % 20]
  {
    assert (k + 20) % 20 == k % 20;
  }

  /** `routeColorMap` and `colorIndex`, with the routes in the order they were first seen. */
  class ColorCache {
    const palette: seq<string>
    var colorMap: map<string, string>
    var colorIndex: nat
    /** The distinct routes seen so far, in the order of their first call. */
    ghost var seen: seq<string>

    /**
     * `colorIndex` counts the distinct routes seen, the map holds exactly
     * those routes, and the `k`-th of them has the `k`-th colour, cyclically.
     */
    ghost predicate Valid()
      reads this
    {
      && GoodPalette(palette)
      && colorIndex == |seen|
      && (forall i, j :: 0 <= i < j < |seen| ==> seen[i] != seen[j])
      && (forall r :: r in colorMap <==> r in seen)
      && (forall k :: 0 <= k < |seen| ==> colorMap[seen[k]] == Cyclic(palette, k))
    }

    /** The empty memo, as the module starts. */
    constructor(palette: seq<string>)
      requires GoodPalette(palette)
      ensures Valid()
      ensures this.palette == palette && colorMap == map[] && colorIndex == 0 && seen == []
    {
      this.palette := palette;
      colorMap := map[];
      colorIndex := 0;
      seen := [];
    }

    /** `getRouteColor(route)` */
    method GetRouteColor(route: string) returns (color: string)
      requires Valid()
      modifies this
      ensures Valid()
      ensures color in palette && route in colorMap && colorMap[route] == color
      ensures route in old(colorMap) ==>
                color == old(colorMap)[route] && colorMap == old(colorMap)
                && colorIndex == old(colorIndex) && seen == old(seen)
      ensures route !in old(colorMap) ==>
                color == Cyclic(palette, old(colorIndex)) && colorMap == old(colorMap)[route := color]
                && colorIndex == old(colorIndex) + 1 && seen == old(seen) + [route]
    {
      if route !in colorMap {
        colorMap := colorMap[route := palette[colorIndex % |palette|]];
        colorIndex := colorIndex + 1;
        seen := seen + [route];
      }
      color := colorMap[route];
    }

    /** `getRouteColorMap()`: a copy of the memo, a value the caller cannot change it through. */
    function RouteColorMap(): (m: map<string, string>)
      reads this
      requires Valid()
      ensures |m.Keys| == colorIndex
      ensures forall r :: r in m ==> m[r] in palette
      ensures forall k :: 0 <= k < colorIndex ==> seen[k] in m && m[seen[k]] == Cyclic(palette, k)
    {
      DistinctCardinality(seen, colorMap.Keys);
      colorMap
    }
  }

  /** A set holding exactly the entries of a list without repeats has the list's length. */
  lemma {:induction false} DistinctCardinality(s: seq<string>, keys: set<string>)
    requires forall i, j :: 0 <= i < j < |s| ==> s[i] != s[j]
    requires forall r :: r in keys <==> r in s
    ensures |keys| == |s|
  {
    if s != [] {
      var last := s[|s| - 1];
      var init := s[..|s| - 1];
      forall r ensures r in keys - {last} <==> r in init {
        if r in s && r != last {
          var i :| 0 <= i < |s| && s[i] == r;
          assert init[i] == r;
        }
      }
      DistinctCardinality(init, keys - {last});
    }
  }

  /** With a 20-colour palette, the `k`-th and the `(k + 20)`-th distinct routes share a colour. */
  lemma SameColorTwentyApart(cache: ColorCache, k: nat)
    requires cache.Valid() && |cache.palette| == 20 && k + 20 < |cache.seen|
    ensures cache.colorMap[cache.seen[k]] == cache.colorMap[cache.seen[k + 20]]
  {
    CyclicPeriodic(cache.palette, k);
  }

  /** A route asked for twice gets the same colour both times, and the second call changes nothing. */
  method RepeatedRouteSameColor(cache: ColorCache, route: string) returns (first: string, second: string)
    requires cache.Valid()
    modifies cache
    ensures first == second
    ensures cache.Valid()
  {
    first := cache.GetRouteColor(route);
    ghost var index := cache.colorIndex;
    second := cache.GetRouteColor(route);
    assert cache.colorIndex == index;
  }

  /**
   * Three calls on a fresh dashboard memo: two distinct routes take the first
   * two colours in order, and the first route keeps its colour.
   */
  method FirstColorsInOrder() returns (a: string, b: string, c: string)
    ensures a == "#E63946" && b == "#2A9D8F" && c == a
  {
    assert GoodPalette(RoutePalette) by { PalettesGood(); }
    var cache := new ColorCache(RoutePalette);
    a := cache.GetRouteColor("stargate");
    assert a == RoutePalette[0];
    assert cache.colorMap == map["stargate" := a] && cache.colorIndex == 1;
    assert "across" !in cache.colorMap;
    b := cache.GetRouteColor("across");
    assert b == RoutePalette[1];
    assert "stargate" in cache.colorMap && cache.colorMap["stargate"] == a;
    c := cache.GetRouteColor("stargate");
  }
}
