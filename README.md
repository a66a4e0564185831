# Costa Rica population map — decision logic in Dafny

This project models the decision logic of a single-page Leaflet map of Costa
Rica's 2022 population (`js/script.js`). The page colours provinces,
cantons and districts by population bucket. It switches the canton and
district layers on and off by zoom. It shows hospital and school points only
inside a fixed list of densely populated areas. It tracks the hovered polygon
for a side info panel. Everything around that logic is left out: the map
library, the fetches and the HTML.

The model has seven modules:

- `Options` (`options.dfy`): `Option`, standing for a JavaScript value that may be `undefined`/`null`.
- `NumberFormat` (`number_format.dfy`): `formatNumber`. The regular expression `\B(?=(\d{3})+(?!\d))` is modelled as the recursive grouping `Group`. It is shown equal to the left-to-right replacement at exactly the positions where the pattern matches (`ReplaceFrom`). Its round trip and the shape of its blocks are proved. The numeral of `toString` (for integers up to 2^53) is `Decimal`, proved to be a bijection with canonical digit strings.
- `Classification` (`classification.dfy`): `getColorForFeature` and `colorSchemes`. A population falls into a bucket 0..4 by ascending strict `<` thresholds. The colour is the bucket's colour, or `#ccc` when the population is missing or zero or the level is unknown.
- `SchemeLabels` (`scheme_labels.dfy`): the range labels of `colorSchemes` against the thresholds of `getColorForFeature`.
- `PointFilter` (`point_filter.dfy`): `estaEnAreaPoblada`, `areasPobladas` and the `filter` calls of `loadFilteredPoints`. Point attributes are optional strings. `CANTON || CANTóN` falls through to the accented attribute when `CANTON` is missing or empty.
- `Legend` (`legend.dfy`): the tier choice and the entry-building loop of `updateLegend`.
- `MapPage` (`map_page.dfy`): a class `Page` holding the page's globals. Its methods are the event handlers: start-up, `zoomend`, `moveend`, the two checkbox handlers and the polygon and point mouse handlers. The `zoomend` guards, the point layers, the legend and the hover transitions are specified by functions. The page invariant `Valid` is kept by every handler.

Facts about the polygon layers, read off the code:

- The province layer is attached once and never removed.
- The canton and district guards are independent. From zoom 11 on, all three polygon layers are attached together (`AllLayersFromZoom11`).

Two further facts read off the code:

- Every range label is built from the formatted thresholds of its level (`RangeLabels`). The top label reads "> t", yet a population of exactly `t` falls into the top bucket (`TopLabelIncludesThreshold`).
- A click on a point, or hovering a point, shows that point's details without touching `hoveredFeature`. Leaving the tracked polygon afterwards therefore clears those details (`LeavingTrackedClearsOtherDetails`).

## Model

| member | source | states |
|---|---|---|
| NumberFormat.FormatNumber | js/script.js:48-50 | the result is "No disponible" exactly when the value is missing or 0; otherwise it is non-empty and starts with '-' exactly for negative values |
| NumberFormat.Decimal | js/script.js:49 | `toString` of a non-negative integer is a non-empty digit string with no leading zero (except for 0) |
| NumberFormat.ValueOfDecimal | js/script.js:49 | reading the numeral back as a number gives n |
| NumberFormat.DecimalOfValue | js/script.js:49 | every canonical digit string is the numeral of the number it denotes |
| NumberFormat.DecimalLength | js/script.js:49 | the numeral has at most k+1 digits exactly when n < 10^(k+1) |
| NumberFormat.Group | js/script.js:49 | grouping keeps the first and last digit in place |
| NumberFormat.StripGroup | js/script.js:49 | deleting the commas from a grouped digit string gives the digits back |
| NumberFormat.GroupLength | js/script.js:49 | grouping adds one comma per full block of three after the first block |
| NumberFormat.GroupShape | js/script.js:49 | commas stand exactly at positions 4, 8, 12, ... from the end and never first, and digits stand everywhere else; the length is never a multiple of 4, so the first block has 1-3 digits and later blocks exactly 3 |
| NumberFormat.GroupIsRegexReplace | js/script.js:49 | the recursive grouping equals inserting "," at every position where `\B(?=(\d{3})+(?!\d))` matches |
| NumberFormat.FormatNumberRoundTrip | js/script.js:48-50 | for any non-zero integer, deleting the commas (after the sign) gives exactly its decimal numeral, and so its value |
| NumberFormat.FormatNumberShape | js/script.js:48-50 | a formatted positive number has the block shape of GroupShape |
| NumberFormat.FormatNumberHasComma | js/script.js:48-50 | a positive number gets a comma iff it is at least 1000; below 1000 it is its plain numeral |
| NumberFormat.DecimalThousands | js/script.js:49 | the numeral of 1000·h + m is the numeral of h followed by the three digits of m, zero-padded |
| NumberFormat.FormatThousands | js/script.js:48-50 | formatting 1000·h + m gives the formatted h, a comma, and the three digits of m |
| NumberFormat.PopulationText | js/script.js:65 | the panel, tooltip and popup text is the caller's sentinel for a missing or zero population and the formatted number otherwise |
| NumberFormat.PanelTextIsFormatNumber | js/script.js:65 | with the "No disponible" sentinel the guard in front of `formatNumber` changes nothing |
| Classification.ParseLevel | js/script.js:377-399 | only "provincia", "canton" and "distrito" name a level |
| Classification.SchemeOf | js/script.js:30-46 | every level has five colours and five range labels |
| Classification.Thresholds | js/script.js:379-397 | every level has four positive, strictly ascending thresholds |
| Classification.Bucket | js/script.js:379-397 | the chosen index is in 0..4 and the population lies between the threshold below it (inclusive) and the one above it (exclusive) |
| Classification.BucketUnique | js/script.js:379-397 | a population lies in exactly one bucket |
| Classification.BucketMonotone | js/script.js:379-397 | the bucket never decreases as the population grows |
| Classification.ThresholdGoesUp | js/script.js:379-397 | a population equal to threshold i lands in bucket i+1 |
| Classification.ColorForFeature | js/script.js:373-400 | `#ccc` for a missing or zero population or an unknown level; otherwise a colour other than `#ccc`, namely the colour of the one bucket the population lies in |
| Classification.ColorsDistinct | js/script.js:30-46 | within a level the five colours differ, so a colour identifies its bucket |
| SchemeLabels.RangeLabels | js/script.js:30-46 | for every level the five range labels are "< t0", "t0 - t1", "t1 - t2", "t2 - t3" and "> t3", where t0..t3 are the level's thresholds formatted by `formatNumber` |
| SchemeLabels.TopLabelIncludesThreshold | js/script.js:30-46 | the top label is "> t3", yet a population of exactly t3 gets the top bucket's colour |
| PointFilter.AllowList | js/script.js:18-28 | each level's allow-list has no repeated entry, and "SAN JOSE" and "ALAJUELA" are on every level's list |
| PointFilter.Includes | js/script.js:53-60 | `includes` is true iff some entry of the list equals the attribute; a missing attribute is on no list |
| PointFilter.CantonName | js/script.js:56 | `CANTON` when present and non-empty, otherwise `CANTóN` |
| PointFilter.FilterLevel | js/script.js:52-61 | the zoom ranges below 6, 6-8, 9-10 and 11 up are disjoint, cover every zoom, and select no tier, province, canton and district |
| PointFilter.EstaEnAreaPoblada | js/script.js:52-61 | false below zoom 6; otherwise true iff the point's unit at the zoom's tier is on that tier's allow-list |
| PointFilter.KeepPopulated | js/script.js:309-311 | the kept points are no more than the input's and all come from the input and lie in a populated area |
| PointFilter.KeepIsSubsequence | js/script.js:309-311 | the filter keeps an order-preserving subsequence of the input |
| PointFilter.KeepCounts | js/script.js:343-345 | each point is kept as often as it occurs in the input if it lies in a populated area, and never otherwise |
| PointFilter.KeepMembership | js/script.js:343-345 | a point is kept iff it is in the input and lies in a populated area |
| PointFilter.KeepAll | js/script.js:309-311 | a list of points all in populated areas passes unchanged |
| PointFilter.KeepIdempotent | js/script.js:309-311 | filtering twice at the same zoom equals filtering once |
| Legend.LegendLevel | js/script.js:414-423 | zoom < 9 gives provinces, 9-10 cantons, 11 up districts |
| Legend.LegendAgreesWithFilter | js/script.js:414-423 | from zoom 6 on, the legend's tier is the tier whose allow-list filters the points |
| Legend.BuildLegend | js/script.js:409-463 | the legend has the tier heading, then the five colour/label swatches of that tier in order, then a services heading iff a toggle is on, a hospitals row iff hospitals are on and a schools row iff schools are on |
| MapPage.AfterCantonGuard | js/script.js:547-557 | after the canton guard the canton layer is attached iff zoom >= 9, and no other layer changes |
| MapPage.AfterDistrictGuard | js/script.js:586-596 | after the district guard the district layer is attached iff zoom >= 11, and no other layer changes |
| MapPage.AfterZoomEnd | js/script.js:547-596 | a zoomend leaves every layer but the canton and district ones as it was; the canton layer is attached iff zoom >= 9 when its data loaded (else unchanged), the district layer iff zoom >= 11 when its data loaded (else unchanged) |
| MapPage.GuardsCommute | js/script.js:547-596 | the two guards give the same layers in either registration order |
| MapPage.GuardsIdempotent | js/script.js:547-596 | running a guard twice changes nothing |
| MapPage.ZoomEndAttaches | js/script.js:547-596 | after a zoomend the province layer is untouched, the canton layer is attached iff it loaded and zoom >= 9, the district layer iff it loaded and zoom >= 11 |
| MapPage.AllLayersFromZoom11 | js/script.js:518-596 | with the province layer attached and all data loaded, a zoomend at zoom >= 11 leaves all three polygon layers attached |
| MapPage.LayersFollowLegendTier | js/script.js:547-596 | after a zoomend with both datasets loaded, whatever was attached before (zooming in or out), the canton layer is attached iff the legend's tier is canton or district, and the district layer iff it is district |
| MapPage.PointLayer | js/script.js:305-311 | a point layer exists iff its toggle is on and its data loaded, and it holds exactly the dataset's points in a populated area at the zoom |
| MapPage.MouseOver | js/script.js:213-222 | mouseover tracks the polygon and shows its details |
| MapPage.MouseOut | js/script.js:223-238 | mouseout of the tracked polygon resets the panel and tracking; otherwise nothing changes |
| MapPage.ShowInfo | js/script.js:239-250 | a click shows the feature's details and leaves the tracked polygon as it was |
| MapPage.LastHoverWins | js/script.js:213-237 | entering a, entering b, then leaving a leaves b tracked and shown |
| MapPage.LeavingTrackedClearsOtherDetails | js/script.js:233-237 | leaving the tracked polygon clears the panel even if a click put other details there |
| MapPage.Page.constructor | js/script.js:602-605 | start-up at `InitialZoom`, the zoom 8 of `setView` (js/script.js:1): province layer iff it loaded, both toggles on, both point layers filtered at zoom 8, no legend, nothing hovered; the invariant holds |
| MapPage.Page.LoadFilteredPoints | js/script.js:293-371 | both point layers become PointLayer of their toggle, dataset and current zoom; nothing else changes |
| MapPage.Page.UpdateLegend | js/script.js:402-466 | the legend is replaced by one built for the current tier and toggles; nothing else changes |
| MapPage.Page.UpdateZoomInfo | js/script.js:468-473 | the readout shows the zoom, the legend is rebuilt and the point layers are re-filtered; a page that was valid stays valid |
| MapPage.Page.CantonGuard | js/script.js:547-557 | attaches or detaches the canton layer as AfterCantonGuard says; nothing else changes |
| MapPage.Page.DistrictGuard | js/script.js:586-596 | attaches or detaches the district layer as AfterDistrictGuard says; nothing else changes |
| MapPage.Page.ZoomEnd | js/script.js:492 | a zoomend sets the zoom, readout, legend and point layers for it, runs the guards of the loaded layers, and keeps the invariant |
| MapPage.Page.MoveEnd | js/script.js:493 | a moveend re-filters to the same point layers, rebuilds the legend and keeps the invariant |
| MapPage.Page.SetHospitalsVisible | js/script.js:476-480 | the hospitals flag becomes the checkbox state, the hospital layer is rebuilt from it (none when off), and the legend is rebuilt |
| MapPage.Page.SetSchoolsVisible | js/script.js:482-486 | the schools flag becomes the checkbox state, the school layer is rebuilt from it (none when off), and the legend is rebuilt |
| MapPage.Page.FeatureMouseOver | js/script.js:213-222 | the hover state becomes MouseOver of the old one; nothing else changes |
| MapPage.Page.FeatureMouseOut | js/script.js:223-238 | the hover state becomes MouseOut of the old one; nothing else changes |
| MapPage.Page.ShowFeatureInfo | js/script.js:239-289 | a click, or a point's mouseover, only replaces the panel's details |
| MapPage.HospitalsOffAndOn | js/script.js:476-480 | switching hospitals off and on again restores the identical hospital layer |

## Left out

- The map library: tiles, `L.geoJSON`, styles (their opacities are floating point), `bringToFront`, `openPopup`, tooltips, popups and the scale control. These are calls into code that is not part of this model.
- The HTML of the info panel, tooltips, popups and legend. The panel is a `Panel` value, the legend a list of `LegendItem`s, and the scheme's display `name` is not kept.
- Fetches and their timing. Each dataset's fetch outcome is fixed when the `Page` is built: the polygon datasets either load or not, and the point datasets are either a list of features or missing. A stale response applied after a later zoom is not modelled, and neither is the order in which responses arrive. The guards commute, so that order does not matter for the polygon layers.
- Overlapping point loads. Every zoom fires `zoomend` and then `moveend` (js/script.js:492-493), and both run `updateZoomInfo`, which calls `loadFilteredPoints`. The second call removes the old layers (js/script.js:297-302) before either fetch resolves. Each callback then adds its own layer (js/script.js:332, 366) and overwrites `window.hospitalesLayer` or `window.escuelasLayer` (js/script.js:313, 347). The first layer stays on the map with nothing referring to it, so later zooms and switching the toggle off never remove it. The start-up load and the `setTimeout` call race the same way. `Page.LoadFilteredPoints` completes each load before the next starts, so `Page.Valid` and `HospitalsOffAndOn` describe the page only when loads do not overlap; the orphaned layers are not modelled.
- `setTimeout(updateZoomInfo, 1000)`: `UpdateZoomInfo` is a method the environment may call at any time; the delay is not modelled.
- The reset-view button and the map centre: floating-point coordinates with no logic.
- Leaflet's clamping of the zoom to 6..12 and the order in which Leaflet fires `zoomend` and `moveend`. Zoom is an unbounded integer (Leaflet's default whole-number zoom snap), and each event is a separate method.
- JavaScript numbers beyond integers: fractions, `NaN`, and the exponent notation `toString` uses from 1e21 on. A population is an `Option<int>`.
- Decimal, ValueOfDecimal, DecimalOfValue and FormatNumberRoundTrip: integers above 2^53 are not modelled. JavaScript stores them inexactly, and `toString` prints the shortest digits that read back as the same double, padded with zeros (2**64 prints as 18446744073709552000, not 18446744073709551616). These members describe `toString` exactly only for integers up to 2^53. Populations are far below that bound.
- Attribute values that are not strings (for example a number in `PROVINCIA`). An attribute is an `Option<string>`, and `includes` compares strings exactly.
- The point layers' own `mouseout` style reset (styling only).
