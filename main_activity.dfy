/**
 * Model of MainActivity.kt: the permission gate in front of the tracking
 * service, the search-box visibility toggled by clicks, and the search-result
 * observer that puts one marker per place on the map and fills the list.
 *
 * Platform calls the activity makes (startForegroundService, getMapAsync, the
 * permission request, MainViewModel.searchPlace) are appended to `calls`.
 * Number parsing (String.toDouble) and the map SDK's Tm128 projection are
 * opaque functions held in a `Projection`.
 */
module MyKidsPosition {
  import opened Options

  const ACCESS_FINE_LOCATION: string := "android.permission.ACCESS_FINE_LOCATION"
  const ACCESS_COARSE_LOCATION: string := "android.permission.ACCESS_COARSE_LOCATION"
  /** PackageManager.PERMISSION_GRANTED and PERMISSION_DENIED. */
  const PERMISSION_GRANTED: int := 0
  const PERMISSION_DENIED: int := -1
  /** Color.RED, the ARGB value 0xFFFF0000 read as a signed 32-bit Int. */
  const COLOR_RED: int := -65536

  /** View.VISIBLE, View.INVISIBLE and View.GONE. */
  datatype Visibility = Visible | Invisible | Gone

  datatype LatLng = LatLng(latitude: real, longitude: real)

  /** One place of a search response: its name and its Tm128 coordinates as text. */
  datatype PlaceItem = PlaceItem(title: string, mapx: string, mapy: string)

  /** What MainViewModel.searchData delivers: the result count and the items. */
  datatype SearchResponse = SearchResponse(total: int, items: seq<PlaceItem>)

  /** MarkerIcons.BLACK, the only icon the activity uses. */
  datatype MarkerIcon = Black

  /** A marker attached to the map. */
  datatype Marker = Marker(position: LatLng, tag: int, icon: MarkerIcon, iconTintColor: int)

  /** A call the activity makes into the platform or into its view model. */
  datatype Call =
    | StartForegroundService
    | GetMapAsync
    | LaunchPermissionRequest(permissions: seq<string>)
    | SearchPlace(query: string)

  /** The exceptions marker construction can raise; nothing in the activity catches them. */
  datatype Exception = NumberFormatException | UninitializedPropertyAccessException

  datatype Outcome = Completed | Threw(exception: Exception)

  /**
   * String.toDouble (None when the text is not a number) and
   * Tm128(x, y).toLatLng() of the map SDK.
   */
  datatype Projection = Projection(toDouble: string -> Option<real>, tm128ToLatLng: (real, real) -> LatLng)

  // ----- the permission gate -----

  /** Context.checkSelfPermission against the set of permissions the user has granted. */
  function CheckSelfPermission(granted: set<string>, permission: string): int {
    if permission in granted then PERMISSION_GRANTED else PERMISSION_DENIED
  }

  /** verifyPermissions: location access counts as available only when both permissions are granted. */
  function VerifyPermissions(granted: set<string>): (ok: bool)
    ensures ok <==> ACCESS_FINE_LOCATION in granted && ACCESS_COARSE_LOCATION in granted
  {
    if CheckSelfPermission(granted, ACCESS_FINE_LOCATION) != PERMISSION_GRANTED
       || CheckSelfPermission(granted, ACCESS_COARSE_LOCATION) != PERMISSION_GRANTED
    then false
    else true
  }

  /** Map.getOrDefault. */
  function GetOrDefault(m: map<string, bool>, key: string, default: bool): bool {
    if key in m then m[key] else default
  }

  /** The decision of the permission-result callback: start the service when either permission came back granted. */
  function StartsServiceOnResult(permissions: map<string, bool>): (start: bool)
    ensures start <==>
      (ACCESS_FINE_LOCATION in permissions && permissions[ACCESS_FINE_LOCATION]) ||
      (ACCESS_COARSE_LOCATION in permissions && permissions[ACCESS_COARSE_LOCATION])
  {
    if GetOrDefault(permissions, ACCESS_FINE_LOCATION, false) then true
    else if GetOrDefault(permissions, ACCESS_COARSE_LOCATION, false) then true
    else false
  }

  /** The calls startService makes: start JeffService in the foreground, then ask for the map. */
  const START_SERVICE_CALLS: seq<Call> := [StartForegroundService, GetMapAsync]

  /** The call requestLocationPermission makes: one request for both location permissions. */
  const REQUEST_PERMISSION_CALLS: seq<Call> :=
    [LaunchPermissionRequest([ACCESS_FINE_LOCATION, ACCESS_COARSE_LOCATION])]

  /** The calls onCreate makes: it starts the service or else requests both permissions, never both. */
  function OnCreateCalls(granted: set<string>): (calls: seq<Call>)
    ensures calls == START_SERVICE_CALLS <==>
      ACCESS_FINE_LOCATION in granted && ACCESS_COARSE_LOCATION in granted
    ensures calls == REQUEST_PERMISSION_CALLS <==>
      !(ACCESS_FINE_LOCATION in granted && ACCESS_COARSE_LOCATION in granted)
  {
    if VerifyPermissions(granted) then START_SERVICE_CALLS else REQUEST_PERMISSION_CALLS
  }

  /** What the permission dialog reports when the user leaves the grants as `granted`. */
  function GrantResults(granted: set<string>): map<string, bool> {
    map[ACCESS_FINE_LOCATION := ACCESS_FINE_LOCATION in granted,
        ACCESS_COARSE_LOCATION := ACCESS_COARSE_LOCATION in granted]
  }

  /**
   * The callback is more lenient than verifyPermissions: it starts the service
   * when either permission is granted, so every grant state onCreate accepts is
   * accepted by the callback as well, and only fine or only coarse is accepted
   * by the callback alone.
   */
  lemma CallbackAcceptsEitherGrant(granted: set<string>)
    ensures StartsServiceOnResult(GrantResults(granted)) <==>
      ACCESS_FINE_LOCATION in granted || ACCESS_COARSE_LOCATION in granted
    ensures VerifyPermissions(granted) ==> StartsServiceOnResult(GrantResults(granted))
  {
  }

  lemma OneGrantIsNotEnoughForOnCreate()
    ensures !VerifyPermissions({ACCESS_FINE_LOCATION})
    ensures StartsServiceOnResult(GrantResults({ACCESS_FINE_LOCATION}))
  {
  }

  // ----- the search box -----

  /** The visibility of searchEditTextContainer and editTextView. */
  datatype SearchUi = SearchUi(container: Visibility, editText: Visibility)

  /** The clicks that change the search box. */
  datatype UiEvent = OpenSearchClick | SearchClick(text: string) | MapClick

  /**
   * One click: the open button shows the container, the search button hides it,
   * and a call of onMapClick hides the text field. onMapReady never registers
   * the activity as the map's click listener, so the SDK makes no such call;
   * MapClick stands for a direct call of the handler.
   */
  function UiStep(ui: SearchUi, e: UiEvent): SearchUi {
    match e
    case OpenSearchClick => ui.(container := Visible)
    case SearchClick(_) => ui.(container := Gone)
    case MapClick => ui.(editText := Gone)
  }

  function UiRun(ui: SearchUi, events: seq<UiEvent>): SearchUi
    decreases |events|
  {
    if events == [] then ui else UiRun(UiStep(ui, events[0]), events[1..])
  }

  /** The search queries a sequence of clicks issues, in order. */
  function Queries(events: seq<UiEvent>): seq<string> {
    if events == [] then []
    else (if events[0].SearchClick? then [events[0].text] else []) + Queries(events[1..])
  }

  /**
   * The text field is hidden after a sequence of clicks exactly when one of them
   * was a call of onMapClick; otherwise it keeps its layout visibility. No handler
   * shows it again.
   */
  lemma {:induction false} EditTextHiddenByMapTapForGood(ui: SearchUi, events: seq<UiEvent>)
    ensures UiRun(ui, events).editText == if MapClick in events then Gone else ui.editText
    decreases |events|
  {
    if events != [] {
      EditTextHiddenByMapTapForGood(UiStep(ui, events[0]), events[1..]);
      assert events == [events[0]] + events[1..];
      assert MapClick in events <==> events[0] == MapClick || MapClick in events[1..];
    }
  }

  /** Calls of onMapClick leave the container as it was and issue no query. */
  lemma {:induction false} MapTapsKeepContainer(ui: SearchUi, events: seq<UiEvent>)
    requires forall i | 0 <= i < |events| :: events[i] == MapClick
    ensures UiRun(ui, events).container == ui.container
    ensures Queries(events) == []
    decreases |events|
  {
    if events != [] {
      MapTapsKeepContainer(UiStep(ui, events[0]), events[1..]);
    }
  }

  /** After a search click the container is hidden, and that click's text is the last query issued. */
  lemma {:induction false} SearchClickHidesAndQueries(ui: SearchUi, events: seq<UiEvent>, text: string)
    ensures UiRun(ui, events + [SearchClick(text)]).container == Gone
    ensures Queries(events + [SearchClick(text)]) == Queries(events) + [text]
    decreases |events|
  {
    if events == [] {
      assert events + [SearchClick(text)] == [SearchClick(text)];
    } else {
      assert (events + [SearchClick(text)])[1..] == events[1..] + [SearchClick(text)];
      SearchClickHidesAndQueries(UiStep(ui, events[0]), events[1..], text);
    }
  }

  // ----- markers -----

  /** The position of a place: both coordinates parsed as doubles, then projected from Tm128. */
  function Position(proj: Projection, item: PlaceItem): Option<LatLng> {
    match proj.toDouble(item.mapx)
    case None => None
    case Some(x) =>
      match proj.toDouble(item.mapy)
      case None => None
      case Some(y) => Some(proj.tm128ToLatLng(x, y))
  }

  /** The exception building the marker for `item` raises: a bad number first, then a map not yet ready. */
  function ThrowsAt(proj: Projection, mapReady: bool, item: PlaceItem): Option<Exception> {
    if Position(proj, item).None? then Some(NumberFormatException)
    else if !mapReady then Some(UninitializedPropertyAccessException)
    else None
  }

  /** The index of the first item whose marker cannot be built, or |items| when every one can. */
  function FirstThrowing(proj: Projection, mapReady: bool, items: seq<PlaceItem>): (k: nat)
    ensures k <= |items|
    ensures forall i | 0 <= i < k :: ThrowsAt(proj, mapReady, items[i]).None?
    ensures k < |items| ==> ThrowsAt(proj, mapReady, items[k]).Some?
  {
    if items == [] then 0
    else if ThrowsAt(proj, mapReady, items[0]).Some? then 0
    else 1 + FirstThrowing(proj, mapReady, items[1..])
  }

  /** The marker for the item at `index`: tag index + 1, black icon, red tint. */
  function MarkerFor(index: nat, position: LatLng): Marker {
    Marker(position, index + 1, Black, COLOR_RED)
  }

  /** The markers for `items`, one per item in order. */
  function MarkerBatch(proj: Projection, items: seq<PlaceItem>): seq<Marker>
    requires forall i | 0 <= i < |items| :: Position(proj, items[i]).Some?
    decreases |items|
  {
    if items == [] then []
    else
      var n := |items| - 1;
      MarkerBatch(proj, items[..n]) + [MarkerFor(n, Position(proj, items[n]).value)]
  }

  /** The markers updateMarker attaches before it completes or throws. */
  function AddedMarkers(proj: Projection, mapReady: bool, items: seq<PlaceItem>): seq<Marker> {
    MarkerBatch(proj, items[..FirstThrowing(proj, mapReady, items)])
  }

  /** How updateMarker ends. */
  function MarkerOutcome(proj: Projection, mapReady: bool, items: seq<PlaceItem>): Outcome {
    var k := FirstThrowing(proj, mapReady, items);
    if k < |items| then Threw(ThrowsAt(proj, mapReady, items[k]).value) else Completed
  }

  /** The batch holds one marker per item, in item order, tagged with its 1-based position. */
  lemma {:induction false} MarkerBatchShape(proj: Projection, items: seq<PlaceItem>)
    requires forall i | 0 <= i < |items| :: Position(proj, items[i]).Some?
    ensures |MarkerBatch(proj, items)| == |items|
    ensures forall i | 0 <= i < |items| ::
      MarkerBatch(proj, items)[i] == Marker(Position(proj, items[i]).value, i + 1, Black, COLOR_RED)
  {
    if items != [] {
      var n := |items| - 1;
      MarkerBatchShape(proj, items[..n]);
      forall i | 0 <= i < n ensures items[..n][i] == items[i] { }
    }
  }

  /** With the map ready and every coordinate a number, a marker is added for every item. */
  lemma AllMarkersAdded(proj: Projection, items: seq<PlaceItem>)
    requires forall i | 0 <= i < |items| :: Position(proj, items[i]).Some?
    ensures FirstThrowing(proj, true, items) == |items|
    ensures AddedMarkers(proj, true, items) == MarkerBatch(proj, items)
    ensures MarkerOutcome(proj, true, items) == Completed
  {
    assert items[..|items|] == items;
  }

  /** Before the map is ready no marker is added, and any item at all makes the observer throw. */
  lemma NoMarkersBeforeMapReady(proj: Projection, items: seq<PlaceItem>)
    ensures AddedMarkers(proj, false, items) == []
    ensures MarkerOutcome(proj, false, items) == Completed <==> items == []
  {
  }

  /** Markers of an earlier search stay beside the new ones, so tags repeat across searches. */
  lemma TagsRepeatAcrossSearches(proj: Projection, first: seq<PlaceItem>, second: seq<PlaceItem>)
    requires first != [] && second != []
    requires forall i | 0 <= i < |first| :: Position(proj, first[i]).Some?
    requires forall i | 0 <= i < |second| :: Position(proj, second[i]).Some?
    ensures var all := MarkerBatch(proj, first) + MarkerBatch(proj, second);
      |all| == |first| + |second| && all[0].tag == 1 && all[|first|].tag == 1
  {
  }

  // ----- the activity -----

  class MainActivity {
    /** String.toDouble and the Tm128 projection used to place markers. */
    const projection: Projection
    var searchEditTextContainer: Visibility
    var editTextView: Visibility
    var bottomSheetContainer: Visibility
    /** The count shown in bottomSheetTitleText; None while it still shows the layout's text. */
    var bottomSheetTitle: Option<int>
    /** The markers attached to the map, oldest first. */
    var markers: seq<Marker>
    /** The items last submitted to placeListAdapter. */
    var listItems: seq<PlaceItem>
    /** Whether onMapReady has initialised the lateinit naverMap. */
    var naverMapReady: bool
    /** Calls made into the platform and the view model, oldest first. */
    var calls: seq<Call>

    function Ui(): SearchUi
      reads this
    {
      SearchUi(searchEditTextContainer, editTextView)
    }

    /**
     * onCreate on a fresh activity: initViews hides the bottom sheet, then the
     * service is started or the permissions are requested. The container and
     * the text field keep the visibility the layout gives them.
     */
    constructor (granted: set<string>, projection: Projection, layoutContainer: Visibility, layoutEditText: Visibility)
      ensures this.projection == projection
      ensures Ui() == SearchUi(layoutContainer, layoutEditText)
      ensures bottomSheetContainer == Gone && bottomSheetTitle == None
      ensures markers == [] && listItems == [] && !naverMapReady
      ensures calls == OnCreateCalls(granted)
    {
      this.projection := projection;
      searchEditTextContainer := layoutContainer;
      editTextView := layoutEditText;
      bottomSheetContainer := Gone;
      bottomSheetTitle := None;
      markers := [];
      listItems := [];
      naverMapReady := false;
      calls := [];
      new;
      if VerifyPermissions(granted) {
        StartService();
      } else {
        RequestLocationPermission();
      }
    }

    /** startService: start JeffService in the foreground, then request the map asynchronously. */
    method StartService()
      modifies this`calls
      ensures calls == old(calls) + START_SERVICE_CALLS
    {
      calls := calls + [StartForegroundService];
      calls := calls + [GetMapAsync];
    }

    /** requestLocationPermission: ask for fine and coarse location together. */
    method RequestLocationPermission()
      modifies this`calls
      ensures calls == old(calls) + REQUEST_PERMISSION_CALLS
    {
      calls := calls + [LaunchPermissionRequest([ACCESS_FINE_LOCATION, ACCESS_COARSE_LOCATION])];
    }

    /** The permission-result callback: one startService if fine or coarse was granted, nothing otherwise. */
    method OnPermissionResult(permissions: map<string, bool>)
      modifies this`calls
      ensures calls == old(calls) + if StartsServiceOnResult(permissions) then START_SERVICE_CALLS else []
    {
      if GetOrDefault(permissions, ACCESS_FINE_LOCATION, false) {
        StartService();
      } else if GetOrDefault(permissions, ACCESS_COARSE_LOCATION, false) {
        StartService();
      }
    }

    /** The search-place button shows the search container. */
    method OnSearchPlaceButtonClick()
      modifies this`searchEditTextContainer
      ensures Ui() == UiStep(old(Ui()), OpenSearchClick)
      ensures searchEditTextContainer == Visible
    {
      searchEditTextContainer := Visible;
    }

    /** The search button hides the container and issues one search for the text field's current text. */
    method OnSearchButtonClick(text: string)
      modifies this`searchEditTextContainer, this`calls
      ensures Ui() == UiStep(old(Ui()), SearchClick(text))
      ensures searchEditTextContainer == Gone
      ensures calls == old(calls) + [SearchPlace(text)]
    {
      searchEditTextContainer := Gone;
      calls := calls + [SearchPlace(text)];
    }

    /**
     * onMapClick hides the text field only; the container and the calls are
     * untouched. The activity never registers itself as the map's click
     * listener, so in the app as written the SDK never calls this handler.
     */
    method OnMapClick()
      modifies this`editTextView
      ensures Ui() == UiStep(old(Ui()), MapClick)
      ensures editTextView == Gone
    {
      editTextView := Gone;
    }

    /** onMapReady initialises naverMap. */
    method OnMapReady()
      modifies this`naverMapReady
      ensures naverMapReady
    {
      naverMapReady := true;
    }

    /**
     * updateMarker: attach one marker per item, in order, until an item's
     * marker cannot be built; markers already on the map stay.
     */
    method UpdateMarker(items: seq<PlaceItem>) returns (outcome: Outcome)
      modifies this`markers
      ensures markers == old(markers) + AddedMarkers(projection, naverMapReady, items)
      ensures outcome == MarkerOutcome(projection, naverMapReady, items)
    {
      ghost var k := FirstThrowing(projection, naverMapReady, items);
      var i := 0;
      while i < |items|
        invariant 0 <= i <= |items| && i <= k
        invariant forall j | 0 <= j < i :: Position(projection, items[j]).Some?
        invariant markers == old(markers) + MarkerBatch(projection, items[..i])
      {
        var position := Position(projection, items[i]);
        if position.None? {
          return Threw(NumberFormatException);
        }
        if !naverMapReady {
          return Threw(UninitializedPropertyAccessException);
        }
        assert items[..i + 1][..i] == items[..i];
        markers := markers + [MarkerFor(i, position.value)];
        i := i + 1;
      }
      assert items[..i] == items;
      return Completed;
    }

    /**
     * The searchData observer: show the bottom sheet, title it with the total,
     * add the markers, then submit the items to the list. An exception from
     * updateMarker ends the observer before the list is submitted.
     */
    method OnSearchData(response: SearchResponse) returns (outcome: Outcome)
      modifies this`bottomSheetContainer, this`bottomSheetTitle, this`markers, this`listItems
      ensures bottomSheetContainer == Visible
      ensures bottomSheetTitle == Some(response.total)
      ensures markers == old(markers) + AddedMarkers(projection, naverMapReady, response.items)
      ensures outcome == MarkerOutcome(projection, naverMapReady, response.items)
      ensures listItems == if outcome == Completed then response.items else old(listItems)
    {
      bottomSheetContainer := Visible;
      bottomSheetTitle := Some(response.total);
      outcome := UpdateMarker(response.items);
      if outcome == Completed {
        listItems := response.items;
      }
    }
  }
}
