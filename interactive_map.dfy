/**
 * The report map of src/components/GoogleInteractiveMap.tsx: the marker
 * colour rule, the marker label, the location picker's click handling, and
 * the component state (map type, selected report, the user's position).
 * The map widget and the browser's geolocation are not modelled; a position
 * fix arrives as a parameter.
 */
module InteractiveMap {
  import opened Common
  import opened Text

  datatype LatLng = LatLng(lat: real, lng: real)

  /** A report as the map receives it. */
  datatype MapReport = MapReport(
    mongoId: Option<string>,        // `_id`
    id: Option<string>,
    description: string, latitude: real, longitude: real,
    category: string, status: string, priority: Option<string>)

  const Green := "#10b981"
  const Amber := "#fbbf24"
  const Grey := "#6b7280"
  const Red := "#ef4444"
  const Orange := "#FF6500"

  /** `getMarkerColor`. */
  function MarkerColor(status: string, priority: Option<string>): (colour: string)
    ensures status == "resolved" ==> colour == Green
    ensures status == "in_progress" ==> colour == Amber
    ensures status == "closed" ==> colour == Grey
    ensures status == "open" ==> colour == (if priority == Some("critical") || priority == Some("high") then Red else Orange)
    ensures status !in {"resolved", "in_progress", "closed", "open"} ==> colour == Orange
  {
    match status
    case "resolved" => Green
    case "in_progress" => Amber
    case "closed" => Grey
    case "open" => if priority == Some("critical") || priority == Some("high") then Red else Orange
    case _ => Orange
  }

  /** Red marks exactly the open reports of critical or high priority. */
  lemma RedMeansUrgentOpen(status: string, priority: Option<string>)
    ensures MarkerColor(status, priority) == Red <==>
      status == "open" && (priority == Some("critical") || priority == Some("high"))
  {
    assert Red[1] != Green[1] && Red[1] != Amber[1] && Red[1] != Grey[1] && Red[1] != Orange[1];
  }

  /** Priority matters only for open reports. */
  lemma PriorityOnlyMattersWhenOpen(status: string, p: Option<string>, q: Option<string>)
    requires status != "open"
    ensures MarkerColor(status, p) == MarkerColor(status, q)
  {
  }

  /** `description.substring(0, 20) + (description.length > 20 ? '...' : '')`. */
  function MarkerLabel(description: string): (text: string)
    ensures |description| <= 20 ==> text == description
    ensures |description| > 20 ==> text == description[..20] + "..."
    ensures |text| <= 23
  {
    Prefix(description, 20) + (if |description| > 20 then "..." else "")
  }

  /**
   * The label always starts with the description's first 20 characters, and
   * it differs from the description exactly when the description is longer
   * than 20 characters, except for a 23-character one already ending in "...".
   */
  lemma LabelShortenedIffLong(description: string)
    ensures MarkerLabel(description) == description <==>
      |description| <= 20 || (|description| == 23 && description[20..] == "...")
    ensures description[..if |description| < 20 then |description| else 20] <= MarkerLabel(description)
  {
    if |description| > 20 {
      var text := MarkerLabel(description);
      assert |text| == 23;
      assert text[..20] == description[..20];
      if |description| == 23 {
        assert description == description[..20] + description[20..];
      }
    }
  }

  datatype MapType = Roadmap | Satellite

  /** White label text on satellite imagery, black on the road map. */
  function LabelColour(mapType: MapType): (colour: string)
    ensures colour == if mapType == Satellite then "#ffffff" else "#000000"
    ensures colour[1] == if mapType == Satellite then 'f' else '0'
  {
    if mapType == Satellite then "#ffffff" else "#000000"
  }

  /** `report._id || report.id || ''`: the id handed to `onReportClick`. */
  function DetailId(r: MapReport): (id: string)
    ensures r.mongoId.Some? && r.mongoId.value != "" ==> id == r.mongoId.value
    ensures r.mongoId.GetOr("") == "" && r.id.Some? && r.id.value != "" ==> id == r.id.value
    ensures r.mongoId.GetOr("") == "" && r.id.GetOr("") == "" ==> id == ""
  {
    if r.mongoId.Some? && r.mongoId.value != "" then r.mongoId.value
    else if r.id.Some? && r.id.value != "" then r.id.value
    else ""
  }

  /** `handleMapClick`: the location reported, if any. */
  function MapClick(showLocationPicker: bool, latLng: Option<LatLng>, hasCallback: bool): (selected: Option<LatLng>)
    ensures selected.Some? <==> showLocationPicker && latLng.Some? && hasCallback
    ensures selected.Some? ==> selected == latLng
  {
    if showLocationPicker && latLng.Some? && hasCallback then latLng else None
  }

  const DefaultCenter := LatLng(40.7128, -74.0060)

  class MapView {
    const showLocationPicker: bool
    const hasLocationCallback: bool    // `onLocationSelect` was given
    const hasReportCallback: bool      // `onReportClick` was given
    var mapType: MapType
    var selectedReport: Option<MapReport>
    var userLocation: Option<LatLng>
    var isLoadingLocation: bool
    var mapCenter: LatLng
    var locationsSelected: seq<LatLng>  // the calls to `onLocationSelect`
    var reportsOpened: seq<string>      // the calls to `onReportClick`

    constructor (showLocationPicker: bool, hasLocationCallback: bool, hasReportCallback: bool)
      ensures this.showLocationPicker == showLocationPicker
      ensures this.hasLocationCallback == hasLocationCallback && this.hasReportCallback == hasReportCallback
      ensures mapType == Roadmap && selectedReport.None? && userLocation.None? && !isLoadingLocation
      ensures mapCenter == DefaultCenter && locationsSelected == [] && reportsOpened == []
    {
      this.showLocationPicker := showLocationPicker;
      this.hasLocationCallback := hasLocationCallback;
      this.hasReportCallback := hasReportCallback;
      mapType := Roadmap;
      selectedReport := None;
      userLocation := None;
      isLoadingLocation := false;
      mapCenter := DefaultCenter;
      locationsSelected := [];
      reportsOpened := [];
    }

    /** The Map and Satellite buttons. */
    method SetMapType(t: MapType)
      modifies this`mapType
      ensures mapType == t
    {
      mapType := t;
    }

    /** A click on a report marker opens its info window. */
    method SelectReport(r: MapReport)
      modifies this`selectedReport
      ensures selectedReport == Some(r)
    {
      selectedReport := Some(r);
    }

    /** Closing the info window. */
    method CloseInfo()
      modifies this`selectedReport
      ensures selectedReport.None?
    {
      selectedReport := None;
    }

    /** `handleMapClick`. */
    method HandleMapClick(latLng: Option<LatLng>)
      modifies this`locationsSelected
      ensures locationsSelected == old(locationsSelected) +
        (match MapClick(showLocationPicker, latLng, hasLocationCallback) case Some(p) => [p] case None => [])
    {
      if showLocationPicker && latLng.Some? && hasLocationCallback {
        locationsSelected := locationsSelected + [latLng.value];
      }
    }

    /** "View Details" in the info window: shown only when `onReportClick` was given. */
    method ViewDetails()
      requires selectedReport.Some? && hasReportCallback
      modifies this`reportsOpened
      ensures reportsOpened == old(reportsOpened) + [DetailId(selectedReport.value)]
    {
      reportsOpened := reportsOpened + [DetailId(selectedReport.value)];
    }

    /** A position request (on mount, or the my-location button) when the browser has geolocation. */
    method StartLocating(geolocationSupported: bool)
      modifies this`isLoadingLocation
      ensures isLoadingLocation == (geolocationSupported || old(isLoadingLocation))
    {
      if geolocationSupported {
        isLoadingLocation := true;
      }
    }

    /** The position request's answer: a fix moves the user marker and the centre; an error only ends the loading. */
    method LocationAnswer(fix: Option<LatLng>)
      modifies this`userLocation, this`mapCenter, this`isLoadingLocation
      ensures !isLoadingLocation
      ensures fix.Some? ==> userLocation == fix && mapCenter == fix.value
      ensures fix.None? ==> userLocation == old(userLocation) && mapCenter == old(mapCenter)
    {
      if fix.Some? {
        userLocation := fix;
        mapCenter := fix.value;
      }
      isLoadingLocation := false;
    }
  }
}
