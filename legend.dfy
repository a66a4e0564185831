/**
 * The legend (`updateLegend`): a heading for the tier the zoom selects, one
 * swatch per bucket of that tier's colour scheme, and a "Servicios" section
 * with a row per point layer that is switched on.
 */
module Legend {
  import opened Options
  import opened Classification
  import PointFilter

  /** The entries of the legend, in display order; the markup around them is left out. */
  datatype LegendItem =
    | Heading(level: Level)
    | Swatch(color: string, range: string)
    | ServicesHeading
    | HospitalsEntry
    | SchoolsEntry

  /** The tier the legend shows: below 9 provinces, below 11 cantons, otherwise districts. */
  function LegendLevel(zoom: int): (l: Level)
    ensures l == Provincia <==> zoom < 9
    ensures l == Canton <==> 9 <= zoom < 11
    ensures l == Distrito <==> 11 <= zoom
  {
    if zoom < 9 then Provincia else if zoom < 11 then Canton else Distrito
  }

  /**
   * From zoom 6 on (the map's minimum zoom) the legend describes the same
   * tier whose allow-list filters the points.
   */
  lemma LegendAgreesWithFilter(zoom: int)
    requires zoom >= 6
    ensures PointFilter.FilterLevel(zoom) == Some(LegendLevel(zoom))
  {
  }

  /** What a legend built at a tier with the two point toggles shows. */
  ghost predicate Shows(items: seq<LegendItem>, l: Level, hospitals: bool, schools: bool)
  {
    var scheme := SchemeOf(l);
    |items| == 6 + (if hospitals || schools then 1 else 0) + (if hospitals then 1 else 0) + (if schools then 1 else 0) &&
    items[0] == Heading(l) &&
    (forall i :: 0 <= i < 5 ==> items[i + 1] == Swatch(scheme.colors[i], scheme.ranges[i])) &&
    (hospitals || schools ==> items[6] == ServicesHeading) &&
    (HospitalsEntry in items <==> hospitals) &&
    (SchoolsEntry in items <==> schools) &&
    (hospitals && schools ==> items[7] == HospitalsEntry && items[8] == SchoolsEntry)
  }

  /** The body of `onAdd`: the heading, the loop over the scheme's buckets, then the services rows. */
  method BuildLegend(zoom: int, hospitalsVisible: bool, schoolsVisible: bool) returns (items: seq<LegendItem>)
    ensures Shows(items, LegendLevel(zoom), hospitalsVisible, schoolsVisible)
  {
    var level := if zoom < 9 then Provincia else if zoom < 11 then Canton else Distrito;
    var scheme := SchemeOf(level);
    items := [Heading(level)];
    for i := 0 to |scheme.colors|
      invariant |items| == i + 1 && items[0] == Heading(level)
      invariant forall k :: 0 <= k < i ==> items[k + 1] == Swatch(scheme.colors[k], scheme.ranges[k])
    {
      items := items + [Swatch(scheme.colors[i], scheme.ranges[i])];
    }
    var swatches := items;
    forall k | 0 <= k < 6
      ensures swatches[k] != HospitalsEntry && swatches[k] != SchoolsEntry
    {
      if k > 0 {
        assert swatches[(k - 1) + 1] == Swatch(scheme.colors[k - 1], scheme.ranges[k - 1]);
      }
    }
    if hospitalsVisible || schoolsVisible {
      items := items + [ServicesHeading];
      if hospitalsVisible {
        items := items + [HospitalsEntry];
      }
      if schoolsVisible {
        items := items + [SchoolsEntry];
      }
    }
    assert items[..6] == swatches;
  }
}
