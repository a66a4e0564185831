/**
 * The page's mutable state and its event handlers: the polygon layers the
 * `zoomend` guards attach and detach, the filtered point layers, the two
 * checkbox flags, the legend, the zoom readout and the hover tracking of the
 * info panel.
 */
module MapPage {
  import opened Options
  import opened Classification
  import opened PointFilter
  import opened Legend

  /** The zoom of the initial `setView`. */
  const InitialZoom: int := 8

  /** The three choropleth layers. */
  datatype PolygonLayer = ProvinceLayer | CantonLayer | DistrictLayer

  /** The canton guard: attach at zoom 9 and above, detach below. */
  function AfterCantonGuard(attached: set<PolygonLayer>, zoom: int): (r: set<PolygonLayer>)
    ensures CantonLayer in r <==> zoom >= 9
    ensures r - {CantonLayer} == attached - {CantonLayer}
  {
    if zoom >= 9 then attached + {CantonLayer} else attached - {CantonLayer}
  }

  /** The district guard: attach at zoom 11 and above, detach below. */
  function AfterDistrictGuard(attached: set<PolygonLayer>, zoom: int): (r: set<PolygonLayer>)
    ensures DistrictLayer in r <==> zoom >= 11
    ensures r - {DistrictLayer} == attached - {DistrictLayer}
  {
    if zoom >= 11 then attached + {DistrictLayer} else attached - {DistrictLayer}
  }

  /**
   * The layers attached after a `zoomend`: the guard of each dataset that
   * loaded runs (a dataset whose fetch failed registered no guard).
   */
  function AfterZoomEnd(attached: set<PolygonLayer>, zoom: int, cantonsLoaded: bool, districtsLoaded: bool): (r: set<PolygonLayer>)
    ensures r - {CantonLayer, DistrictLayer} == attached - {CantonLayer, DistrictLayer}
    ensures CantonLayer in r <==> if cantonsLoaded then zoom >= 9 else CantonLayer in attached
    ensures DistrictLayer in r <==> if districtsLoaded then zoom >= 11 else DistrictLayer in attached
  {
    var a := if cantonsLoaded then AfterCantonGuard(attached, zoom) else attached;
    if districtsLoaded then AfterDistrictGuard(a, zoom) else a
  }

  /** The two guards touch different layers, so the order the fetches resolved in does not matter. */
  lemma GuardsCommute(attached: set<PolygonLayer>, zoom: int)
    ensures AfterCantonGuard(AfterDistrictGuard(attached, zoom), zoom) ==
            AfterDistrictGuard(AfterCantonGuard(attached, zoom), zoom)
  {
  }

  /** Running a guard a second time changes nothing. */
  lemma GuardsIdempotent(attached: set<PolygonLayer>, zoom: int)
    ensures AfterCantonGuard(AfterCantonGuard(attached, zoom), zoom) == AfterCantonGuard(attached, zoom)
    ensures AfterDistrictGuard(AfterDistrictGuard(attached, zoom), zoom) == AfterDistrictGuard(attached, zoom)
  {
  }

  /**
   * After a `zoomend` the canton layer is attached iff its data loaded and
   * the zoom is at least 9, the district layer iff its data loaded and the
   * zoom is at least 11, and the province layer is left as it was.
   */
  lemma ZoomEndAttaches(attached: set<PolygonLayer>, zoom: int, cantonsLoaded: bool, districtsLoaded: bool)
    requires CantonLayer in attached ==> cantonsLoaded
    requires DistrictLayer in attached ==> districtsLoaded
    ensures var r := AfterZoomEnd(attached, zoom, cantonsLoaded, districtsLoaded);
      (ProvinceLayer in r <==> ProvinceLayer in attached) &&
      (CantonLayer in r <==> cantonsLoaded && zoom >= 9) &&
      (DistrictLayer in r <==> districtsLoaded && zoom >= 11)
  {
  }

  /** The guards are not exclusive: from zoom 11 on, all three layers are attached at once. */
  lemma AllLayersFromZoom11(attached: set<PolygonLayer>, zoom: int)
    requires ProvinceLayer in attached && zoom >= 11
    ensures AfterZoomEnd(attached, zoom, true, true) == {ProvinceLayer, CantonLayer, DistrictLayer}
  {
    var r := AfterZoomEnd(attached, zoom, true, true);
    var all := {ProvinceLayer, CantonLayer, DistrictLayer};
    forall l: PolygonLayer ensures l in r && l in all {
      match l
      case ProvinceLayer =>
      case CantonLayer =>
      case DistrictLayer =>
    }
    assert r <= all && all <= r;
  }

  /**
   * The polygon layers attached after a `zoomend`, whatever was attached
   * before (zooming in or out), against the tier the legend shows: the
   * finest attached layer is the legend's tier.
   */
  lemma LayersFollowLegendTier(attached: set<PolygonLayer>, zoom: int)
    ensures var r := AfterZoomEnd(attached, zoom, true, true);
      (CantonLayer in r <==> LegendLevel(zoom) != Provincia) &&
      (DistrictLayer in r <==> LegendLevel(zoom) == Distrito)
  {
  }

  /**
   * The point layer `loadFilteredPoints` leaves on the map for one dataset:
   * none when its toggle is off or its fetch failed, otherwise the dataset
   * filtered at the current zoom.
   */
  function PointLayer(visible: bool, data: Option<seq<PointFeature>>, zoom: int): (layer: Option<seq<PointFeature>>)
    ensures layer.Some? <==> visible && data.Some?
    ensures layer.Some? ==> forall f :: f in layer.value <==> f in data.value && EstaEnAreaPoblada(f, zoom)
  {
    if visible && data.Some? then
      var kept := KeepPopulated(data.value, zoom);
      forall f ensures f in kept <==> f in data.value && EstaEnAreaPoblada(f, zoom) {
        KeepMembership(data.value, zoom, f);
      }
      Some(kept)
    else None
  }

  /** A sub-layer of a GeoJSON layer, compared by identity as `===` compares layer objects. */
  datatype FeatureRef = FeatureRef(id: nat)

  /** The `layerType` a handler was bound with. */
  datatype LayerKind = Area(level: Level) | Hospital | School

  /** The info panel: the prompt text, or the details of one feature. */
  datatype Panel = Prompt | Details(feature: FeatureRef, kind: LayerKind)

  /** The tracked `hoveredFeature` and the info panel together. */
  datatype Hover = Hover(tracked: Option<FeatureRef>, panel: Panel)

  /** `mouseover` on a polygon: show its details and track it. */
  function MouseOver(h: Hover, f: FeatureRef, level: Level): (h': Hover)
    ensures h'.tracked == Some(f) && h'.panel == Details(f, Area(level))
  {
    Hover(Some(f), Details(f, Area(level)))
  }

  /** `mouseout` on a polygon: reset the panel and stop tracking only when f is the tracked one. */
  function MouseOut(h: Hover, f: FeatureRef): (h': Hover)
    ensures h.tracked == Some(f) ==> h' == Hover(None, Prompt)
    ensures h.tracked != Some(f) ==> h' == h
  {
    if h.tracked == Some(f) then Hover(None, Prompt) else h
  }

  /** A click on any feature, or `mouseover` on a point: show its details, tracking untouched. */
  function ShowInfo(h: Hover, f: FeatureRef, kind: LayerKind): (h': Hover)
    ensures h'.tracked == h.tracked && h'.panel == Details(f, kind)
  {
    h.(panel := Details(f, kind))
  }

  /** Last write wins: leaving a polygon after another was entered leaves the newer one shown. */
  lemma LastHoverWins(h: Hover, a: FeatureRef, b: FeatureRef, la: Level, lb: Level)
    requires a != b
    ensures MouseOut(MouseOver(MouseOver(h, a, la), b, lb), a) == Hover(Some(b), Details(b, Area(lb)))
  {
  }

  /** Leaving the tracked polygon clears the panel even when a click or a point put other details there. */
  lemma LeavingTrackedClearsOtherDetails(h: Hover, a: FeatureRef, la: Level, p: FeatureRef, kind: LayerKind)
    ensures MouseOut(ShowInfo(MouseOver(h, a, la), p, kind), a) == Hover(None, Prompt)
  {
  }

  /** A snapshot of every mutable global of the page. */
  datatype PageView = PageView(
    zoom: int,
    zoomReadout: Option<int>,
    attached: set<PolygonLayer>,
    hospitalsVisible: bool,
    schoolsVisible: bool,
    hospitalsLayer: Option<seq<PointFeature>>,
    schoolsLayer: Option<seq<PointFeature>>,
    legend: Option<seq<LegendItem>>,
    hover: Hover)

  /**
   * The page. The outcome of each fetch is fixed when the page is built:
   * the three polygon datasets either load or not, and the two point
   * datasets are either a list of features or missing.
   */
  class Page {
    const provincesLoaded: bool
    const cantonsLoaded: bool
    const districtsLoaded: bool
    const hospitalsData: Option<seq<PointFeature>>
    const schoolsData: Option<seq<PointFeature>>

    var zoom: int
    var zoomReadout: Option<int>
    var attached: set<PolygonLayer>
    var hospitalsVisible: bool
    var schoolsVisible: bool
    var hospitalsLayer: Option<seq<PointFeature>>
    var schoolsLayer: Option<seq<PointFeature>>
    var legend: Option<seq<LegendItem>>
    var hoveredFeature: Option<FeatureRef>
    var infoPanel: Panel

    function View(): PageView
      reads this
    {
      PageView(zoom, zoomReadout, attached, hospitalsVisible, schoolsVisible,
               hospitalsLayer, schoolsLayer, legend, Hover(hoveredFeature, infoPanel))
    }

    /**
     * The page invariant: the polygon layers are those the guards select for
     * the current zoom, the point layers are the filtered datasets of the
     * switched-on toggles, and the readout and the legend, once shown,
     * describe the current zoom and toggles.
     */
    ghost predicate Valid()
      reads this
    {
      (ProvinceLayer in attached <==> provincesLoaded) &&
      (CantonLayer in attached <==> cantonsLoaded && zoom >= 9) &&
      (DistrictLayer in attached <==> districtsLoaded && zoom >= 11) &&
      hospitalsLayer == PointLayer(hospitalsVisible, hospitalsData, zoom) &&
      schoolsLayer == PointLayer(schoolsVisible, schoolsData, zoom) &&
      (zoomReadout.Some? ==> zoomReadout.value == zoom) &&
      (legend.Some? ==> Shows(legend.value, LegendLevel(zoom), hospitalsVisible, schoolsVisible))
    }

    /** Page start-up at zoom 8: the province layer once it loads, then the first point load. */
    constructor (provincesLoaded: bool, cantonsLoaded: bool, districtsLoaded: bool,
                 hospitalsData: Option<seq<PointFeature>>, schoolsData: Option<seq<PointFeature>>)
      ensures Valid()
      ensures this.provincesLoaded == provincesLoaded && this.cantonsLoaded == cantonsLoaded
      ensures this.districtsLoaded == districtsLoaded
      ensures this.hospitalsData == hospitalsData && this.schoolsData == schoolsData
      ensures View() == PageView(InitialZoom, None, if provincesLoaded then {ProvinceLayer} else {}, true, true,
                                 PointLayer(true, hospitalsData, InitialZoom), PointLayer(true, schoolsData, InitialZoom),
                                 None, Hover(None, Prompt))
    {
      this.provincesLoaded := provincesLoaded;
      this.cantonsLoaded := cantonsLoaded;
      this.districtsLoaded := districtsLoaded;
      this.hospitalsData := hospitalsData;
      this.schoolsData := schoolsData;
      zoom := InitialZoom;
      zoomReadout := None;
      attached := {};
      hospitalsVisible, schoolsVisible := true, true;
      hospitalsLayer, schoolsLayer := None, None;
      legend := None;
      hoveredFeature, infoPanel := None, Prompt;
      new;
      if provincesLoaded {
        attached := attached + {ProvinceLayer};
      }
      LoadFilteredPoints();
    }

    /** `loadFilteredPoints`: drop both point layers, then rebuild those whose toggle is on. */
    method LoadFilteredPoints()
      modifies this
      ensures View() == old(View()).(hospitalsLayer := PointLayer(hospitalsVisible, hospitalsData, zoom),
                                     schoolsLayer := PointLayer(schoolsVisible, schoolsData, zoom))
    {
      hospitalsLayer := None;
      schoolsLayer := None;
      if hospitalsVisible {
        match hospitalsData
        case Some(data) => hospitalsLayer := Some(KeepPopulated(data, zoom));
        case None =>
      }
      if schoolsVisible {
        match schoolsData
        case Some(data) => schoolsLayer := Some(KeepPopulated(data, zoom));
        case None =>
      }
    }

    /** `updateLegend`: replace the legend with one built for the current zoom and toggles. */
    method UpdateLegend()
      modifies this
      ensures legend.Some? && Shows(legend.value, LegendLevel(zoom), hospitalsVisible, schoolsVisible)
      ensures View() == old(View()).(legend := legend)
    {
      var items := BuildLegend(zoom, hospitalsVisible, schoolsVisible);
      legend := Some(items);
    }

    /** `updateZoomInfo`: the readout, the legend and the point layers for the current zoom. */
    method UpdateZoomInfo()
      modifies this
      ensures old(Valid()) ==> Valid()
      ensures legend.Some? && Shows(legend.value, LegendLevel(zoom), hospitalsVisible, schoolsVisible)
      ensures View() == old(View()).(zoomReadout := Some(zoom), legend := legend,
                                     hospitalsLayer := PointLayer(hospitalsVisible, hospitalsData, zoom),
                                     schoolsLayer := PointLayer(schoolsVisible, schoolsData, zoom))
    {
      zoomReadout := Some(zoom);
      UpdateLegend();
      LoadFilteredPoints();
    }

    /** The canton layer's `zoomend` guard. */
    method CantonGuard()
      modifies this
      ensures View() == old(View()).(attached := AfterCantonGuard(old(attached), zoom))
    {
      if zoom >= 9 {
        if CantonLayer !in attached {
          attached := attached + {CantonLayer};
        }
      } else {
        if CantonLayer in attached {
          attached := attached - {CantonLayer};
        }
      }
    }

    /** The district layer's `zoomend` guard. */
    method DistrictGuard()
      modifies this
      ensures View() == old(View()).(attached := AfterDistrictGuard(old(attached), zoom))
    {
      if zoom >= 11 {
        if DistrictLayer !in attached {
          attached := attached + {DistrictLayer};
        }
      } else {
        if DistrictLayer in attached {
          attached := attached - {DistrictLayer};
        }
      }
    }

    /**
     * A `zoomend` at a new zoom: `updateZoomInfo` (registered first), then
     * the guards of the polygon datasets that loaded.
     */
    method ZoomEnd(newZoom: int)
      requires Valid()
      modifies this
      ensures Valid()
      ensures legend.Some?
      ensures View() == old(View()).(zoom := newZoom, zoomReadout := Some(newZoom), legend := legend,
                                     attached := AfterZoomEnd(old(attached), newZoom, cantonsLoaded, districtsLoaded),
                                     hospitalsLayer := PointLayer(hospitalsVisible, hospitalsData, newZoom),
                                     schoolsLayer := PointLayer(schoolsVisible, schoolsData, newZoom))
    {
      zoom := newZoom;
      UpdateZoomInfo();
      if cantonsLoaded {
        CantonGuard();
      }
      if districtsLoaded {
        DistrictGuard();
      }
      ZoomEndAttaches(old(attached), newZoom, cantonsLoaded, districtsLoaded);
    }

    /** A `moveend` without a zoom change: the points are re-filtered to the same sets. */
    method MoveEnd()
      requires Valid()
      modifies this
      ensures Valid()
      ensures legend.Some?
      ensures View() == old(View()).(zoomReadout := Some(zoom), legend := legend)
    {
      UpdateZoomInfo();
    }

    /** The `hospitales-toggle` change handler. */
    method SetHospitalsVisible(checked: bool)
      requires Valid()
      modifies this
      ensures Valid()
      ensures legend.Some?
      ensures View() == old(View()).(hospitalsVisible := checked, legend := legend,
                                     hospitalsLayer := PointLayer(checked, hospitalsData, zoom))
    {
      hospitalsVisible := checked;
      LoadFilteredPoints();
      UpdateLegend();
    }

    /** The `escuelas-toggle` change handler. */
    method SetSchoolsVisible(checked: bool)
      requires Valid()
      modifies this
      ensures Valid()
      ensures legend.Some?
      ensures View() == old(View()).(schoolsVisible := checked, legend := legend,
                                     schoolsLayer := PointLayer(checked, schoolsData, zoom))
    {
      schoolsVisible := checked;
      LoadFilteredPoints();
      UpdateLegend();
    }

    /** `mouseover` on a polygon of the given level. */
    method FeatureMouseOver(f: FeatureRef, level: Level)
      requires Valid()
      modifies this
      ensures Valid()
      ensures View() == old(View()).(hover := MouseOver(old(View()).hover, f, level))
    {
      infoPanel := Details(f, Area(level));
      hoveredFeature := Some(f);
    }

    /** `mouseout` on a polygon. */
    method FeatureMouseOut(f: FeatureRef)
      requires Valid()
      modifies this
      ensures Valid()
      ensures View() == old(View()).(hover := MouseOut(old(View()).hover, f))
    {
      if hoveredFeature == Some(f) {
        infoPanel := Prompt;
        hoveredFeature := None;
      }
    }

    /** A click on a polygon or a point, or `mouseover` on a point: `updateInfoPanel` alone. */
    method ShowFeatureInfo(f: FeatureRef, kind: LayerKind)
      requires Valid()
      modifies this
      ensures Valid()
      ensures View() == old(View()).(hover := ShowInfo(old(View()).hover, f, kind))
    {
      infoPanel := Details(f, kind);
    }
  }

  /**
   * Switching the hospitals off and on again restores the same hospital
   * layer: it depends only on the dataset and the zoom.
   */
  method HospitalsOffAndOn(page: Page)
    requires page.Valid() && page.hospitalsVisible
    modifies page
    ensures page.Valid()
    ensures page.hospitalsLayer == old(page.hospitalsLayer) && page.hospitalsVisible
  {
    page.SetHospitalsVisible(false);
    assert page.hospitalsLayer == None;
    page.SetHospitalsVisible(true);
  }
}
