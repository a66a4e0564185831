/**
 * The populated-area filter of the hospital and school points
 * (`estaEnAreaPoblada`, `areasPobladas` and the `filter` step of
 * `loadFilteredPoints`): at each zoom tier a point is shown only when the
 * administrative unit of that tier is on a fixed allow-list.
 */
module PointFilter {
  import opened Options
  import opened Classification

  /**
   * The attributes of a point feature the filter reads. `canton` is the
   * unaccented `CANTON` attribute and `cantonAccented` the `CANTóN` one; a
   * missing attribute is `None`.
   */
  datatype PointFeature = PointFeature(
    provincia: Option<string>,
    canton: Option<string>,
    cantonAccented: Option<string>,
    distrito: Option<string>)

  /** The allow-lists of `areasPobladas`, one per level. */
  function AllowList(l: Level): (r: seq<string>)
    ensures "SAN JOSE" in r && "ALAJUELA" in r
    ensures forall i, j :: 0 <= i < j < |r| ==> r[i] != r[j]
  {
    match l
    case Provincia => ["SAN JOSE", "ALAJUELA"]
    case Canton => [
      "SAN JOSE", "ALAJUELA", "DESAMPARADOS", "SAN CARLOS", "CARTAGO",
      "POCOCI", "HEREDIA", "PUNTARENAS", "PEREZ ZELEDON", "GOICOECHEA"]
    case Distrito => ["PAVAS", "LIBERIA", "HATILLO", "LIMON", "SAN JOSE", "ALAJUELA", "QUESADA"]
  }

  /** `includes` on a list of strings, for an attribute that may be missing. */
  predicate Includes(list: seq<string>, v: Option<string>): (b: bool)
    ensures v == None ==> !b
    ensures b <==> exists i :: 0 <= i < |list| && v == Some(list[i])
  {
    v.Some? && v.value in list
  }

  /** `CANTON || CANTóN`: a missing or empty `CANTON` falls through to `CANTóN`. */
  function CantonName(f: PointFeature): (c: Option<string>)
    ensures f.canton.Some? && f.canton.value != "" ==> c == f.canton
    ensures f.canton == None || f.canton == Some("") ==> c == f.cantonAccented
  {
    if f.canton.Some? && f.canton.value != "" then f.canton else f.cantonAccented
  }

  /** The attribute of a point that names its unit at a level. */
  function UnitAt(f: PointFeature, l: Level): Option<string>
  {
    match l
    case Provincia => f.provincia
    case Canton => CantonName(f)
    case Distrito => f.distrito
  }

  /** The tier whose list the filter consults at a zoom: none below 6. */
  function FilterLevel(zoom: int): (l: Option<Level>)
    ensures l == None <==> zoom < 6
    ensures l == Some(Provincia) <==> 6 <= zoom < 9
    ensures l == Some(Canton) <==> 9 <= zoom < 11
    ensures l == Some(Distrito) <==> 11 <= zoom
  {
    if zoom < 6 then None
    else if zoom < 9 then Some(Provincia)
    else if zoom < 11 then Some(Canton)
    else Some(Distrito)
  }

  /**
   * `estaEnAreaPoblada`: false below zoom 6; otherwise whether the point's
   * unit at the zoom's tier is on that tier's allow-list.
   */
  function EstaEnAreaPoblada(f: PointFeature, zoom: int): (b: bool)
    ensures zoom < 6 ==> !b
    ensures b <==> FilterLevel(zoom).Some? && Includes(AllowList(FilterLevel(zoom).value), UnitAt(f, FilterLevel(zoom).value))
  {
    if 6 <= zoom < 9 then Includes(AllowList(Provincia), f.provincia)
    else if 9 <= zoom < 11 then Includes(AllowList(Canton), CantonName(f))
    else if zoom >= 11 then Includes(AllowList(Distrito), f.distrito)
    else false
  }

  /** `features.filter(feature => estaEnAreaPoblada(feature, zoom))`. */
  function KeepPopulated(fs: seq<PointFeature>, zoom: int): (r: seq<PointFeature>)
    ensures |r| <= |fs|
    ensures forall f :: f in r ==> f in fs && EstaEnAreaPoblada(f, zoom)
  {
    if fs == [] then []
    else (if EstaEnAreaPoblada(fs[0], zoom) then [fs[0]] else []) + KeepPopulated(fs[1..], zoom)
  }

  /** r is s with some elements deleted and the rest kept in order. */
  ghost predicate IsSubsequence(r: seq<PointFeature>, s: seq<PointFeature>)
    decreases |s|
  {
    if r == [] then true
    else if s == [] then false
    else (r[0] == s[0] && IsSubsequence(r[1..], s[1..])) || IsSubsequence(r, s[1..])
  }

  /** The filter keeps an order-preserving subsequence of its input. */
  lemma {:induction false} KeepIsSubsequence(fs: seq<PointFeature>, zoom: int)
    ensures IsSubsequence(KeepPopulated(fs, zoom), fs)
  {
    if fs != [] {
      var r := KeepPopulated(fs, zoom);
      var rest := KeepPopulated(fs[1..], zoom);
      KeepIsSubsequence(fs[1..], zoom);
      if EstaEnAreaPoblada(fs[0], zoom) {
        assert r == [fs[0]] + rest && r[1..] == rest;
      } else {
        assert r == rest;
      }
    }
  }

  /**
   * The filter keeps exactly the points in a populated area, every one of
   * them as many times as it occurs in the input.
   */
  lemma {:induction false} KeepCounts(fs: seq<PointFeature>, zoom: int, f: PointFeature)
    ensures multiset(KeepPopulated(fs, zoom))[f] == if EstaEnAreaPoblada(f, zoom) then multiset(fs)[f] else 0
  {
    if fs != [] {
      KeepCounts(fs[1..], zoom, f);
      assert fs == [fs[0]] + fs[1..];
    }
  }

  /** A point is kept if and only if it is in the input and in a populated area. */
  lemma KeepMembership(fs: seq<PointFeature>, zoom: int, f: PointFeature)
    ensures f in KeepPopulated(fs, zoom) <==> f in fs && EstaEnAreaPoblada(f, zoom)
  {
    KeepCounts(fs, zoom, f);
    assert f in KeepPopulated(fs, zoom) <==> multiset(KeepPopulated(fs, zoom))[f] > 0;
  }

  /** A list whose points are all in a populated area passes the filter unchanged. */
  lemma {:induction false} KeepAll(fs: seq<PointFeature>, zoom: int)
    requires forall f :: f in fs ==> EstaEnAreaPoblada(f, zoom)
    ensures KeepPopulated(fs, zoom) == fs
  {
    if fs != [] {
      KeepAll(fs[1..], zoom);
      assert fs == [fs[0]] + fs[1..];
    }
  }

  /** Filtering twice at the same zoom is filtering once. */
  lemma KeepIdempotent(fs: seq<PointFeature>, zoom: int)
    ensures KeepPopulated(KeepPopulated(fs, zoom), zoom) == KeepPopulated(fs, zoom)
  {
    KeepAll(KeepPopulated(fs, zoom), zoom);
  }
}
