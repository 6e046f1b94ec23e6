# From/To route screen — a Dafny model

This project models the core of `MainActivity`, the only screen of a small Android
app that draws a route between two places on a map. The screen has two search
fields, From and To. Each field (a *slot*) holds three things:

- the text typed in it;
- the coordinate it resolved to, if any;
- the geocoder addresses last offered as suggestions for it.

The handlers update these slots:

- typing fetches suggestions;
- submitting a text resolves the slot to the geocoder's top result;
- clicking a suggestion resolves the slot to that address;
- the swap icon exchanges the two texts and the two coordinates; the suggestion lists stay where they are.

Every change of a coordinate is followed by a redraw of the map. The redraw:

- clears the map;
- draws a marker and three overlays per point, and one camera move when a point is set: to From if it is set, otherwise to To;
- draws a connecting line and the distance when both points are set, and "Distance: N/A" otherwise.

Each search field shows addresses through `formatAddress`. It joins the locality,
the administrative area and the country name with ", ", reads a missing part as
"", and trims commas and spaces from both ends.

Files:

- `wrappers.dfy`: `Option`, which stands in for Kotlin's nullable types.
- `geo.dfy`: the map coordinate `LatLng`.
- `address_format.dfy`: `formatAddress` and Kotlin's `trim(',', ' ')`, as pure functions with lemmas.
- `map_commands.dfy`: one redraw as the ordered list of calls it makes on the map, and lemmas about each kind of call.
- `directions.dfy`:
  - the slot state as a value (`Screen`);
  - one step function per handler, whose contract states what the handler changes and that nothing else changes;
  - the invariant that every coordinate and every suggestion came from a geocoder reply;
  - the class `MainActivity`. Its fields are the source's fields. Its methods change them step by step as the handlers do, and each is proved against its step function and against the redraw function. `Valid()` holds before and after every handler. It requires that the screen's data came from geocoder replies. It also requires that the map was last drawn from the current coordinates, or was never drawn while both coordinates are unset.

The boundaries are parameters:

- A geocoder call is a `Lookup` argument: a list of addresses, a null list, or an `IOException`. The activity appends the request it makes, as (text, maximum results), to `requests`.
- A map call is a `Command` appended to `drawn`.

The screen builds a coordinate from a geocoder address. It compares it, hands it to the map, offsets it by ±0.01° for the overlays and measures distances with it. The model keeps only the comparison and the hand-over; the offsets, the distance and what building a coordinate involves are under "## Left out".

Empty address parts stay in a label. Trimming removes commas and spaces only at the two ends of "city, state, country", so a city and a country without an administrative area give "A, , B" (`FormatAddressEmptyMiddle`).

## Model

| member | source | states |
|---|---|---|
| `AddressFormat.Address.Position` | app/src/main/java/com/example/googlemaps/MainActivity.kt:214 | The coordinate taken from a geocoder address is its latitude and longitude, unchanged. |
| `AddressFormat.Trim` | app/src/main/java/com/example/googlemaps/MainActivity.kt:205 | Kotlin's `trim(',', ' ')`: the text between the left scan and the right scan. Its meaning is stated by `TrimIsTrimSlice` and `TrimUnique`. |
| `AddressFormat.Template` | app/src/main/java/com/example/googlemaps/MainActivity.kt:202-205 | The string "city, state, country", with a missing part read as "". |
| `AddressFormat.FormatAddress` | app/src/main/java/com/example/googlemaps/MainActivity.kt:201-206 | The label of an address: the trimmed template. Its properties are the `FormatAddress*` lemmas below. |
| `AddressFormat.StartIndex` | app/src/main/java/com/example/googlemaps/MainActivity.kt:205 | The scan from the left skips only commas and spaces and stops at the first kept character, or at the end. |
| `AddressFormat.EndIndex` | app/src/main/java/com/example/googlemaps/MainActivity.kt:205 | The scan from the right skips only commas and spaces and stops after the last kept character, never crossing the left scan's result. |
| `AddressFormat.TrimIsTrimSlice` | app/src/main/java/com/example/googlemaps/MainActivity.kt:205 | `trim(',', ' ')` keeps a contiguous piece of its input: everything before it and after it is a comma or a space, and the piece neither starts nor ends with one. |
| `AddressFormat.TrimUnique` | app/src/main/java/com/example/googlemaps/MainActivity.kt:205 | Any way of stripping commas and spaces from both ends, down to a piece that has none at its ends, gives exactly what trim gives. |
| `AddressFormat.TrimIdempotent` | app/src/main/java/com/example/googlemaps/MainActivity.kt:205 | Trimming a trimmed string changes nothing. |
| `AddressFormat.FormatAddressTrimmed` | app/src/main/java/com/example/googlemaps/MainActivity.kt:201-206 | The label is a contiguous substring of "city, state, country". It neither starts nor ends with ',' or ' '. Trimming it again leaves it unchanged. |
| `AddressFormat.FormatAddressNullIsEmpty` | app/src/main/java/com/example/googlemaps/MainActivity.kt:202-204 | A null locality, administrative area or country formats exactly like an empty one. |
| `AddressFormat.FormatAddressKeepsMiddle` | app/src/main/java/com/example/googlemaps/MainActivity.kt:205 | When the city starts with a kept character and the country ends with one, the label is the whole template. The middle part stays whatever it is, empty included. |
| `AddressFormat.FormatAddressEmptyMiddle` | app/src/main/java/com/example/googlemaps/MainActivity.kt:201-206 | City "A", no administrative area and country "B" give the label "A, , B": an empty middle part is not dropped. |
| `AddressFormat.FormatAddressAllMissing` | app/src/main/java/com/example/googlemaps/MainActivity.kt:201-206 | With all three parts missing, the label is empty. |
| `AddressFormat.FormatAddressCountryOnly` | app/src/main/java/com/example/googlemaps/MainActivity.kt:201-206 | With only a country whose ends are kept characters, the label is exactly the country: the leading ", , " is trimmed away. |
| `MapCommands.Overlays` | app/src/main/java/com/example/googlemaps/MainActivity.kt:297-322 | `addOverlays`: a 1000 m circle, the offset segment and the square, all anchored at the point, in that order. |
| `MapCommands.CenterOn` | app/src/main/java/com/example/googlemaps/MainActivity.kt:231-232 | A camera move to the point, then the zoom to 12 over 2000 ms. |
| `MapCommands.FromCommands` | app/src/main/java/com/example/googlemaps/MainActivity.kt:227-234 | The From block: nothing when From is null, else the green "From" marker, the camera move and the overlays. |
| `MapCommands.ToCommands` | app/src/main/java/com/example/googlemaps/MainActivity.kt:235-244 | The To block: nothing when To is null, else the red "To" marker, a camera move only when From is null, and the overlays. |
| `MapCommands.DistanceCommands` | app/src/main/java/com/example/googlemaps/MainActivity.kt:246-256 | The polyline and the distance when both points are set, else the text "Distance: N/A". |
| `MapCommands.Redraw` | app/src/main/java/com/example/googlemaps/MainActivity.kt:225-257 | One redraw: the clear, the From block, the To block, then the distance output. Its properties are the `Redraw*` lemmas below. |
| `MapCommands.RedrawLayout` | app/src/main/java/com/example/googlemaps/MainActivity.kt:225-257 | Position by position: the clear at 0; with From set, its marker, camera move, zoom, circle, segment and square at 1-6; then the To marker followed by its camera move and zoom (only without From) and its three overlays; the connector and distance, or "Distance: N/A", last. So every From command comes before every To command and each marker before its own overlays. |
| `MapCommands.RedrawByKind` | app/src/main/java/com/example/googlemaps/MainActivity.kt:225-257 | For every kind of call, the calls of that kind in a redraw are exactly, and in order, those the reference table `Expected` lists for the two optional points. |
| `MapCommands.RedrawClearsFirst` | app/src/main/java/com/example/googlemaps/MainActivity.kt:226 | A redraw starts with a clear and contains exactly one clear. |
| `MapCommands.RedrawClearsOnlyFirst` | app/src/main/java/com/example/googlemaps/MainActivity.kt:226-256 | Nothing after a redraw's first call is a clear. |
| `MapCommands.RedrawMarkers` | app/src/main/java/com/example/googlemaps/MainActivity.kt:227-244 | Exactly one marker per point that is set: a green "From" marker, then a red "To" marker. |
| `MapCommands.RedrawCamera` | app/src/main/java/com/example/googlemaps/MainActivity.kt:231-242 | The camera moves to From whenever From is set. It moves to To only when From is unset. It does not move when neither is set. |
| `MapCommands.RedrawOverlays` | app/src/main/java/com/example/googlemaps/MainActivity.kt:225-257 | One 1000 m circle, one segment and one square per point that is set, From before To, each anchored at its point. |
| `MapCommands.RedrawDistance` | app/src/main/java/com/example/googlemaps/MainActivity.kt:246-256 | The connecting line and the distance appear exactly when both points are set. Otherwise the distance text is exactly "Distance: N/A". |
| `MapCommands.RedrawGroupsIntact` | app/src/main/java/com/example/googlemaps/MainActivity.kt:225-257 | In a redraw, every circle is directly followed by its segment and square at the same point, and every camera move by the zoom-to-12 animation of 2000 ms. |
| `MapCommands.OnScreenAfterClear` | app/src/main/java/com/example/googlemaps/MainActivity.kt:226 | After a clear, the map shows only what was drawn after it. |
| `MapCommands.OnScreenAfterRedraw` | app/src/main/java/com/example/googlemaps/MainActivity.kt:225-257 | Whatever was drawn before, after a redraw the map shows exactly that redraw's annotations: no stale marker or overlay survives. |
| `Directions.Hits` | app/src/main/java/com/example/googlemaps/MainActivity.kt:181-183 | The addresses of a geocoder reply: the list when there is one, nothing for a null list or an `IOException`. The `isNullOrEmpty` guard of lines 183 and 212 is `Hits(reply) != []`. |
| `Directions.Utf16Length` | app/src/main/java/com/example/googlemaps/MainActivity.kt:120 | Kotlin's `length` lies between the number of characters and twice that number. It equals the number of characters only when no character lies outside the Basic Multilingual Plane. |
| `Directions.Utf16LengthBmp` | app/src/main/java/com/example/googlemaps/MainActivity.kt:120 | For text within the Basic Multilingual Plane, `length` is the number of characters. |
| `Directions.Labels` | app/src/main/java/com/example/googlemaps/MainActivity.kt:185 | The dropdown shows one label per stored address, and label i is `formatAddress` of address i. |
| `Directions.AfterSuggestionClick` | app/src/main/java/com/example/googlemaps/MainActivity.kt:127-136 | A click at `position < size` sets the slot's coordinate to that address's coordinate and its text to `formatAddress` of it. A click at `position >= size` changes nothing. The other slot and both lists are untouched either way. The To handler (lines 153-162) is the same with the slot exchanged. |
| `Directions.ClickShowsLabel` | app/src/main/java/com/example/googlemaps/MainActivity.kt:129-131 | The text a click puts in the field is the label the dropdown showed at that position. |
| `Directions.AfterSearch` | app/src/main/java/com/example/googlemaps/MainActivity.kt:208-223 | A non-empty reply sets the chosen slot's coordinate to that of `addresses[0]`. An `IOException`, a null or an empty list changes nothing. Texts, lists and the other slot are untouched. |
| `Directions.AfterSuggestions` | app/src/main/java/com/example/googlemaps/MainActivity.kt:179-199 | A non-empty reply replaces the chosen slot's suggestion list. An `IOException`, a null or an empty list keeps the previous list. Both coordinates, both texts and the other list are untouched. |
| `Directions.AfterSwap` | app/src/main/java/com/example/googlemaps/MainActivity.kt:166-177 | The two texts change places and the two coordinates change places. The suggestion lists are not swapped. |
| `Directions.SwapTwiceRestores` | app/src/main/java/com/example/googlemaps/MainActivity.kt:166-177 | Swapping twice restores the original state. |
| `Directions.AfterQueryChange` | app/src/main/java/com/example/googlemaps/MainActivity.kt:119-122 | The field holds the typed text. The slot's list changes only when the text is longer than 2 and the reply is non-empty. Coordinates and the other slot never change. |
| `Directions.GroundedInitial` | app/src/main/java/com/example/googlemaps/MainActivity.kt:45-48 | The initial state, with no coordinate and no suggestion, is grounded in no reply at all. |
| `Directions.GroundedAfterSuggestionClick` | app/src/main/java/com/example/googlemaps/MainActivity.kt:127-136 | A suggestion click keeps every coordinate and suggestion traceable to an address some geocoder reply returned. |
| `Directions.GroundedAfterSearch` | app/src/main/java/com/example/googlemaps/MainActivity.kt:208-223 | A search keeps the screen grounded in the replies seen so far plus its own. |
| `Directions.GroundedAfterSuggestions` | app/src/main/java/com/example/googlemaps/MainActivity.kt:179-199 | A suggestion fetch keeps the screen grounded in the replies seen so far plus its own. |
| `Directions.GroundedAfterSwap` | app/src/main/java/com/example/googlemaps/MainActivity.kt:166-177 | A swap keeps the screen grounded. |
| `Directions.GroundedAfterQueryChange` | app/src/main/java/com/example/googlemaps/MainActivity.kt:119-122 | A text change keeps the screen grounded. |
| `Directions.MainActivity.constructor` | app/src/main/java/com/example/googlemaps/MainActivity.kt:45-48 | Both coordinates are null, both lists and both texts are empty, and nothing has been drawn or requested. |
| `Directions.MainActivity.MapShowsSlots` | app/src/main/java/com/example/googlemaps/MainActivity.kt:225-257 | Between two handlers, once anything has been drawn, the calls the modelled handlers made since the last clear are exactly those of a redraw of the current two coordinates. |
| `Directions.MainActivity.AddOverlays` | app/src/main/java/com/example/googlemaps/MainActivity.kt:297-322 | Appends the 1000 m circle, the offset segment and the square anchored at the point. |
| `Directions.MainActivity.CenterCamera` | app/src/main/java/com/example/googlemaps/MainActivity.kt:231-232 | Appends a camera move to the point, then the zoom-to-12 animation of 2000 ms. |
| `Directions.MainActivity.CalculateDistance` | app/src/main/java/com/example/googlemaps/MainActivity.kt:259-273 | Sets the distance label, for the two points, only when both are set. |
| `Directions.MainActivity.DrawFrom` | app/src/main/java/com/example/googlemaps/MainActivity.kt:227-234 | Appends the From block: green marker, camera, overlays, or nothing when From is null. |
| `Directions.MainActivity.DrawTo` | app/src/main/java/com/example/googlemaps/MainActivity.kt:235-244 | Appends the To block: red marker, a camera move only when From is null, overlays, or nothing when To is null. |
| `Directions.MainActivity.DrawDistance` | app/src/main/java/com/example/googlemaps/MainActivity.kt:246-256 | Appends the connecting line and the distance, or the "Distance: N/A" text. |
| `Directions.MainActivity.UpdateMapWithFromTo` | app/src/main/java/com/example/googlemaps/MainActivity.kt:225-257 | Appends exactly `Redraw(fromLatLng, toLatLng)` and leaves the map in sync with the coordinates. |
| `Directions.MainActivity.SetQuery` | app/src/main/java/com/example/googlemaps/MainActivity.kt:131 | Writes the text of the chosen field only. |
| `Directions.MainActivity.SetResolved` | app/src/main/java/com/example/googlemaps/MainActivity.kt:215 | Writes the coordinate of the chosen slot only. |
| `Directions.MainActivity.SetSuggestions` | app/src/main/java/com/example/googlemaps/MainActivity.kt:184 | Writes the suggestion list of the chosen slot only. |
| `Directions.MainActivity.OnSuggestionClick` | app/src/main/java/com/example/googlemaps/MainActivity.kt:127-136 | Changes the state as `AfterSuggestionClick` does. Redraws exactly when the position is in range. Asks the geocoder nothing, keeps `Valid()` and consumes the event. |
| `Directions.MainActivity.SwapSearchViewContents` | app/src/main/java/com/example/googlemaps/MainActivity.kt:166-177 | Changes the state as `AfterSwap` does, then redraws once. Keeps `Valid()`. |
| `Directions.MainActivity.SearchPlace` | app/src/main/java/com/example/googlemaps/MainActivity.kt:208-223 | Asks the geocoder for 1 result. Changes the state as `AfterSearch` does. Redraws exactly when the reply is non-empty. Keeps `Valid()`. |
| `Directions.MainActivity.ProvideSearchSuggestions` | app/src/main/java/com/example/googlemaps/MainActivity.kt:179-199 | Asks the geocoder for at most 5 results. Changes the state as `AfterSuggestions` does. Never redraws. Keeps `Valid()`. |
| `Directions.MainActivity.OnQueryTextSubmit` | app/src/main/java/com/example/googlemaps/MainActivity.kt:114-117 | A non-null text is searched, as in `SearchPlace`. A null text changes nothing and asks nothing. The event is consumed. The To handler (lines 140-143) is the same. |
| `Directions.MainActivity.OnQueryTextChange` | app/src/main/java/com/example/googlemaps/MainActivity.kt:119-122 | A non-null text becomes the field's text. Only a text longer than 2 sends one request for 5 suggestions. It never redraws. The event is consumed. The To handler (lines 145-148) is the same. |

## Left out

- `onCreate`, the window-insets padding, the fragment transaction and the map UI settings of `onMapReady` (lines 50-110) are platform configuration. The map is taken to be ready before the first handler runs, so the uninitialised `lateinit myMap` case is not modelled.
- Location permission requests, checks and results (lines 324-353), and `getCurrentLocation` (lines 275-295), belong to the operating system and an asynchronous location callback.
- The map-click marker and the marker info windows (lines 101-109) are map SDK side effects.
- The distance value is not computed. It comes from `Location.distanceTo`, a platform geodesic in floating point, followed by `roundToInt`. A redraw records only `SetDistanceKm(from, to)`, meaning "the distance between these two points was shown".
- Overlay geometry is not modelled: the ±0.01° vertices are floating-point arithmetic. Colours and stroke widths are not modelled either. An overlay is recorded as anchored at its point.
- The `MatrixCursor` and `SimpleCursorAdapter` built for the dropdown (lines 187-194) are UI plumbing. Only the labels they show are modelled (`Labels`).
- `SearchView.setQuery` notifies the text listener again. So a suggestion click or a swap can itself trigger `onQueryTextChange` and a new suggestion fetch for the label. This framework re-entry is left out: `SetQuery` writes the text only.
- `onSuggestionSelect` returns true and does nothing else; it has no state to model.
- `Directions.MainActivity.OnSuggestionClick` takes the position as a natural number. The widget never passes a negative position, and for one the Kotlin code would throw an index error rather than ignore it.
- The geocoder's own promise to return at most the requested number of results is not assumed. The model records the limit asked for, not the length of the reply.
- `Directions.Grounded` states that every coordinate and suggestion came from some geocoder reply. It does not state that it came from the slot's most recent query, because the code does not keep that stronger property. A later suggestion fetch leaves the coordinate as it was, and a swap moves coordinates between slots.
- `AddressFormat.Address.Position` assumes every geocoder address carries a coordinate. Android's `Address.getLatitude()` and `getLongitude()` throw `IllegalStateException` when none was set. Lines 132, 158 and 214 do not catch it (`searchPlace` catches only `IOException`), so such an address would crash the screen; the model has no such address.
- Building a `LatLng` clamps the latitude to [-90, 90] and wraps the longitude into [-180, 180). The model keeps the geocoder's numbers unchanged, so two out-of-range addresses that the map would place on the same point stay different coordinates.
- `Directions.MainActivity.MapShowsSlots` speaks only of the calls recorded in `drawn`. The "Clicked Here" marker of the map-tap listener (lines 101-104) and the magenta marker, camera move and overlays of a location fix that arrives late (lines 278-290) also stay on the map until the next clear, so the real map can show more than the redraw.
- Log messages (`Log.d`, `Log.e`) are not modelled.
