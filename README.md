# MyKidsPosition: the tracking service and the search screen, in Dafny

MyKidsPosition lets a guardian find a child's phone on a map. This project models the two
parts of the Android app that hold logic:

- **JeffService** (`jeff_service.dfy`, module `Service`). This is the foreground service that
  puts up a notification and registers for location updates. On the first location fix of its
  lifetime it sends one SMS. A boolean `sendingSms` starts `true` and is cleared by that first
  fix. The class records every call the service makes into the platform and into its helpers
  (`effects`), plus a ghost history of the callbacks it has received. `Valid()` ties both to
  the pure trace function `Trace`. The lemmas about `Trace` hold for every order of start
  commands and fixes: exactly one SMS, sent at the first fix; only that fix's coordinates are
  logged; every location registration comes straight after `startForeground(1, …)`; a start
  command never re-arms the flag, and only a new instance is armed again.
- **MainActivity** (`main_activity.dfy`, module `MyKidsPosition`). It covers four things:
  - the permission gate (`verifyPermissions`, the permission-result callback, and the
    `onCreate` branch);
  - the visibility of the search container, the text field and the bottom sheet;
  - the search-result observer, which adds one marker per place (tag `index + 1`, black icon,
    red tint) and fills the list;
  - the calls the activity makes: `startForegroundService`, `getMapAsync`, the permission
    request, and `searchPlace`.

  Click sequences are described by the pure step function `UiStep`. The class methods are
  proved to follow it.

The lemmas are stated over a few specification functions:
- `Service.Trace` and `Service.Respond` give the calls made for a callback sequence
  (JeffService.kt:35-41 and :62-68).
- `MyKidsPosition.UiStep`, `UiRun` and `Queries` give the box's visibility and the issued
  searches for a click sequence (MainActivity.kt:96-98, :113-116 and :184-186).
- `MyKidsPosition.MarkerBatch`, `AddedMarkers` and `MarkerOutcome` give the markers
  `updateMarker` attaches and how it ends (MainActivity.kt:159-171).

These functions carry no contracts of their own. The rows below for the lemmas and methods
built on them say what they mean.

`options.dfy` holds the `Option` type that stands for Kotlin's nullable types.

In four places the code does not do what one would expect from the names of its parts and its
comments. The model follows the code:

- `verifyPermissions` wants fine **and** coarse location. The permission callback starts the
  service on fine **or** coarse. So with only one permission granted, every cold start asks
  again, and the callback then starts the service (`OneGrantIsNotEnoughForOnCreate`).
- `updateMarker` never removes markers. Markers from earlier searches stay on the map, and
  their tags repeat (`TagsRepeatAcrossSearches`).
- `onMapClick` hides only `editTextView`, not the search container, and no handler makes the
  text field visible again (`EditTextHiddenByMapTapForGood`). The activity implements
  `NaverMap.OnMapClickListener` but never registers itself as the map's click listener:
  `onMapReady` sets only the location source and the tracking mode. So in the app as written
  a map tap never reaches `onMapClick`, and the text field is never hidden. The `MapClick`
  event and `MainActivity.OnMapClick` stand for a call of the handler that the map SDK never
  makes.
- A coordinate that is not a number throws from `toDouble`. So does a search result that
  arrives before `onMapReady`, through the uninitialised `lateinit naverMap`. Nothing catches
  either exception: the markers already added stay, and the list is not updated (`Outcome`,
  `OnSearchData`). An empty result list never throws.

## Model

| member | source | states |
|---|---|---|
| `Service.JeffService.constructor` | app/src/main/java/com/wt/kids/mykidsposition/service/JeffService.kt:24 | a new instance is armed (`sendingSms` true), has made no call and has sent no SMS |
| `Service.JeffService.OnStartCommand` | app/src/main/java/com/wt/kids/mykidsposition/service/JeffService.kt:35-41 | returns START_STICKY (1); appends channel creation, `startForeground(1, …)` and then the location registration; leaves `sendingSms` and the SMS count unchanged |
| `Service.JeffService.StartNotificationService` | app/src/main/java/com/wt/kids/mykidsposition/service/JeffService.kt:48-60 | creates the channel (application id, "Jeff", IMPORTANCE_DEFAULT); then starts the foreground with id 1 and an empty title and text on that channel |
| `Service.JeffService.OnBind` | app/src/main/java/com/wt/kids/mykidsposition/service/JeffService.kt:43-46 | always returns no binder (null) |
| `Service.JeffService.OnLocationChanged` | app/src/main/java/com/wt/kids/mykidsposition/service/JeffService.kt:62-68 | if armed: clears the flag, sends one SMS and logs this fix's latitude and longitude; otherwise changes nothing; the flag is false afterwards and at most one SMS has ever been sent |
| `Service.SmsSentOnce` | app/src/main/java/com/wt/kids/mykidsposition/service/JeffService.kt:62-67 | for every callback sequence, the SMS count is 0 while no fix has arrived and exactly 1 once any fix has |
| `Service.SmsAtFirstFix` | app/src/main/java/com/wt/kids/mykidsposition/service/JeffService.kt:63-65 | no SMS is sent before the first fix; the first fix appends exactly the SMS and its own log line; the whole sequence sends one SMS |
| `Service.LaterFixIsNoOp` | app/src/main/java/com/wt/kids/mykidsposition/service/JeffService.kt:63 | a fix arriving after the first one adds no call |
| `Service.OnlyFirstFixLogged` | app/src/main/java/com/wt/kids/mykidsposition/service/JeffService.kt:66 | the log holds no coordinates before the first fix, and afterwards exactly the first fix's coordinates, however many fixes follow |
| `Service.ForegroundBeforeRegistration` | app/src/main/java/com/wt/kids/mykidsposition/service/JeffService.kt:38-39 | in every trace, each location registration comes right after a `startForeground` with id 1 |
| `Service.StartCommandKeepsFlag` | app/src/main/java/com/wt/kids/mykidsposition/service/JeffService.kt:35-41 | a start command does not change whether the service is armed |
| `MyKidsPosition.VerifyPermissions` | app/src/main/java/com/wt/kids/mykidsposition/MainActivity.kt:151-157 | true exactly when both fine and coarse location are granted |
| `MyKidsPosition.StartsServiceOnResult` | app/src/main/java/com/wt/kids/mykidsposition/MainActivity.kt:48-57 | true exactly when the result maps fine or coarse to granted; a missing key counts as denied |
| `MyKidsPosition.MainActivity.OnPermissionResult` | app/src/main/java/com/wt/kids/mykidsposition/MainActivity.kt:48-57 | appends one startService (foreground service, then map request) if fine or coarse was granted, and nothing otherwise |
| `MyKidsPosition.CallbackAcceptsEitherGrant` | app/src/main/java/com/wt/kids/mykidsposition/MainActivity.kt:48-57 | the callback starts the service iff at least one permission is granted; every grant state accepted by `verifyPermissions` is accepted by the callback |
| `MyKidsPosition.OneGrantIsNotEnoughForOnCreate` | app/src/main/java/com/wt/kids/mykidsposition/MainActivity.kt:151-157 | with fine location alone, `verifyPermissions` fails although the callback would start the service |
| `MyKidsPosition.OnCreateCalls` | app/src/main/java/com/wt/kids/mykidsposition/MainActivity.kt:83-87 | onCreate either starts the service (iff both permissions are granted) or requests both permissions (iff not), never both |
| `MyKidsPosition.MainActivity.constructor` | app/src/main/java/com/wt/kids/mykidsposition/MainActivity.kt:77-88 | the bottom sheet starts hidden, with no markers, an empty list and no map; the calls made are those of `OnCreateCalls` |
| `MyKidsPosition.MainActivity.StartService` | app/src/main/java/com/wt/kids/mykidsposition/MainActivity.kt:137-143 | starts the foreground service first, then requests the map |
| `MyKidsPosition.MainActivity.RequestLocationPermission` | app/src/main/java/com/wt/kids/mykidsposition/MainActivity.kt:145-149 | launches one request for fine and coarse location, in that order |
| `MyKidsPosition.MainActivity.OnSearchPlaceButtonClick` | app/src/main/java/com/wt/kids/mykidsposition/MainActivity.kt:96-98 | the search container becomes visible; nothing else changes |
| `MyKidsPosition.MainActivity.OnSearchButtonClick` | app/src/main/java/com/wt/kids/mykidsposition/MainActivity.kt:113-116 | the container is hidden and exactly one search for the current text is issued |
| `MyKidsPosition.MainActivity.OnMapClick` | app/src/main/java/com/wt/kids/mykidsposition/MainActivity.kt:184-186 | hides the text field only; the container's visibility and the calls are unchanged (the handler is never registered with the map, see above) |
| `MyKidsPosition.MainActivity.OnMapReady` | app/src/main/java/com/wt/kids/mykidsposition/MainActivity.kt:173-178 | the map is initialised, so markers can be attached from then on |
| `MyKidsPosition.EditTextHiddenByMapTapForGood` | app/src/main/java/com/wt/kids/mykidsposition/MainActivity.kt:184-186 | after any sequence of handler calls the text field is hidden iff the sequence holds an onMapClick call; otherwise it keeps its layout visibility |
| `MyKidsPosition.MapTapsKeepContainer` | app/src/main/java/com/wt/kids/mykidsposition/MainActivity.kt:184-186 | onMapClick calls alone leave the container's visibility unchanged and issue no search |
| `MyKidsPosition.SearchClickHidesAndQueries` | app/src/main/java/com/wt/kids/mykidsposition/MainActivity.kt:113-116 | after any clicks, a search click leaves the container hidden and adds exactly its text to the issued queries |
| `MyKidsPosition.FirstThrowing` | app/src/main/java/com/wt/kids/mykidsposition/MainActivity.kt:160-165 | the index of the first item whose marker throws (bad number first, then missing map), or the item count; every earlier item builds |
| `MyKidsPosition.MarkerBatchShape` | app/src/main/java/com/wt/kids/mykidsposition/MainActivity.kt:159-171 | a batch has one marker per item, in order; item i's marker has its projected position, tag i+1, the black icon and the red tint |
| `MyKidsPosition.AllMarkersAdded` | app/src/main/java/com/wt/kids/mykidsposition/MainActivity.kt:159-171 | with the map ready and all coordinates numeric, updateMarker completes and adds exactly one marker per item |
| `MyKidsPosition.NoMarkersBeforeMapReady` | app/src/main/java/com/wt/kids/mykidsposition/MainActivity.kt:162-165 | before onMapReady no marker is added, and the call completes only for an empty list |
| `MyKidsPosition.TagsRepeatAcrossSearches` | app/src/main/java/com/wt/kids/mykidsposition/MainActivity.kt:159-171 | two searches leave both batches on the map, and both start with tag 1 |
| `MyKidsPosition.MainActivity.UpdateMarker` | app/src/main/java/com/wt/kids/mykidsposition/MainActivity.kt:159-171 | appends the batch for the items before the first failing one to the markers already there, and reports whether and how it threw |
| `MyKidsPosition.MainActivity.OnSearchData` | app/src/main/java/com/wt/kids/mykidsposition/MainActivity.kt:126-131 | shows the bottom sheet; titles it with `total`, not the item count; adds the markers; replaces the list with the items in order, unless marker construction threw |

## Left out

- Logging is not modelled; JeffService.onCreate and the TextWatcher callbacks do nothing else. The one exception is the fix coordinates logged in onLocationChanged, which are modelled because they show which fix fired.
- The intent, flags and startId arguments of onStartCommand are not modelled: the service ignores them. Neither are the arguments of onMapClick or the call to `super.onStartCommand`.
- The notification channel is recorded as one creation call. Whether the platform reuses an existing channel, and what the notification looks like, are platform behaviour.
- SmsUtils.sendSms and LocationUtils.registerLocationUpdates appear only as recorded calls; their source is not part of this model. Which service instance receives onStartCommand, and the restart after a kill (START_STICKY), are up to the platform. The model covers only that a new instance starts armed.
- String.toDouble and the Tm128 projection are opaque functions (`Projection`): they are floating point and part of the map SDK. Coordinates are `real`.
- MainViewModel.searchPlace and the lookup backend are not modelled: they are asynchronous and use the network. Only the issued query is recorded. The observer takes the delivered response as its input.
- ResponseItemsData is not part of this model. A place is reduced to a name and its two coordinate strings.
- The format string R.string.str_result_count is not modelled: the title is recorded as the number it shows.
- onMapReady's location source and tracking mode, the MapView lifecycle and view lookup are platform plumbing.
- What happens after an uncaught exception is not modelled. The process dies, and `Outcome.Threw` marks the point.
- MainActivity.OnMapClick: the handler body is modelled, but not its registration. The source never registers the activity as the map's click listener, so no map tap reaches it.
- Concurrency is not modelled: callbacks are taken to arrive one at a time, on one thread.
- ui/compose/PlaceSearchView.kt (Compose layout and a toast) is left out. So is utils/DataStoreUtils.kt, a wrapper over the DataStore library with no logic of its own.
