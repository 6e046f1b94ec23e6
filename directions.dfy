/**
 * The From/To route screen (`MainActivity`): two search fields, each with the
 * coordinate it resolved to and the geocoder suggestions last offered for it,
 * and the map that is redrawn from the two coordinates.
 *
 * The geocoder and the map are outside the model. A geocoder call is the
 * `Lookup` the caller passes in (a list, no list, or an `IOException`), and the
 * activity logs the request it would have made. A map call is a `Command`
 * appended to the log `drawn`.
 *
 * `Screen` is the value of the slot fields. Each handler is specified by a step
 * function on `Screen`: it changes the chosen slot as the source does and leaves
 * everything else alone. The class `MainActivity` holds the same fields and its
 * methods are proved against those step functions.
 */
module Directions {
  import opened Wrappers
  import opened Geo
  import opened AddressFormat
  import opened MapCommands

  /** Which search field a handler serves (the source's `isFrom` flag). */
  datatype Slot = From | To {
    function Other(): (r: Slot)
      ensures r != this
    {
      if this == From then To else From
    }
  }

  /** What one `Geocoder.getFromLocationName` call gave back. */
  datatype Lookup =
    | IOError                          // the call threw an `IOException`
    | NoList                           // the call returned null
    | Addresses(list: seq<Address>)

  /** The addresses of a reply; an exception or a null list gives none. */
  function Hits(reply: Lookup): seq<Address> {
    if reply.Addresses? then reply.list else []
  }

  /** The addresses of a reply, as a set. */
  ghost function Heard(reply: Lookup): set<Address> {
    set a | a in Hits(reply)
  }

  /** A geocoder call: the text looked up and the number of results asked for. */
  datatype GeocodeRequest = GeocodeRequest(query: string, maxResults: nat)

  /** Results asked for when offering suggestions, and when resolving a submitted query. */
  const SuggestionLimit := 5
  const SearchLimit := 1
  /** Suggestions are fetched once the text is longer than this many UTF-16 units. */
  const MinFetchLength := 2

  /**
   * Kotlin's `String.length`: the number of UTF-16 code units, so a character
   * outside the Basic Multilingual Plane counts twice.
   */
  function Utf16Length(s: string): (n: nat)
    ensures |s| <= n <= 2 * |s|
    ensures n == |s| ==> forall i :: 0 <= i < |s| ==> s[i] as int < 0x1_0000
  {
    if s == [] then 0
    else (if s[0] as int < 0x1_0000 then 1 else 2) + Utf16Length(s[1..])
  }

  /** A text of Basic Multilingual Plane characters is as long in UTF-16 units as in characters. */
  lemma {:induction false} Utf16LengthBmp(s: string)
    requires forall i :: 0 <= i < |s| ==> s[i] as int < 0x1_0000
    ensures Utf16Length(s) == |s|
  {
    if s != [] {
      assert s[0] as int < 0x1_0000;
      assert forall i :: 0 <= i < |s[1..]| ==> s[1..][i] == s[i + 1];
      Utf16LengthBmp(s[1..]);
    }
  }

  /** The fields the handlers read and write, as one value. */
  datatype Screen = Screen(
    fromQuery: string,
    toQuery: string,
    fromLatLng: Option<LatLng>,
    toLatLng: Option<LatLng>,
    fromSuggestions: seq<Address>,
    toSuggestions: seq<Address>)
  {
    /** The text in the slot's search field. */
    function Query(slot: Slot): string {
      if slot == From then fromQuery else toQuery
    }

    /** The coordinate the slot resolved to, if any. */
    function Resolved(slot: Slot): Option<LatLng> {
      if slot == From then fromLatLng else toLatLng
    }

    /** The addresses last offered as the slot's suggestions. */
    function Suggestions(slot: Slot): seq<Address> {
      if slot == From then fromSuggestions else toSuggestions
    }

    function WithQuery(slot: Slot, q: string): Screen {
      if slot == From then this.(fromQuery := q) else this.(toQuery := q)
    }

    function WithResolved(slot: Slot, p: Option<LatLng>): Screen {
      if slot == From then this.(fromLatLng := p) else this.(toLatLng := p)
    }

    function WithSuggestions(slot: Slot, list: seq<Address>): Screen {
      if slot == From then this.(fromSuggestions := list) else this.(toSuggestions := list)
    }
  }

  /** Both screens agree on everything that belongs to `slot`. */
  predicate SameSlot(s: Screen, r: Screen, slot: Slot) {
    r.Query(slot) == s.Query(slot) && r.Resolved(slot) == s.Resolved(slot)
    && r.Suggestions(slot) == s.Suggestions(slot)
  }

  /** The empty screen: no text, no coordinate, no suggestion. */
  const Initial := Screen("", "", None, None, [], [])

  /** The labels of a suggestion list, as the dropdown shows them. */
  function Labels(list: seq<Address>): (r: seq<string>)
    ensures |r| == |list|
    ensures forall i :: 0 <= i < |list| ==> r[i] == FormatAddress(list[i])
  {
    seq(|list|, i requires 0 <= i < |list| => FormatAddress(list[i]))
  }

  /**
   * `onSuggestionClick`: a position inside the slot's list puts that address's
   * label in the field and its coordinate in the slot; any other position
   * changes nothing. The other slot and both lists are never touched.
   */
  function AfterSuggestionClick(s: Screen, slot: Slot, position: nat): (r: Screen)
    ensures SameSlot(s, r, slot.Other())
    ensures r.Suggestions(slot) == s.Suggestions(slot)
    ensures position < |s.Suggestions(slot)| ==>
              r.Resolved(slot) == Some(s.Suggestions(slot)[position].Position())
              && r.Query(slot) == FormatAddress(s.Suggestions(slot)[position])
    ensures position >= |s.Suggestions(slot)| ==> r == s
  {
    var list := s.Suggestions(slot);
    if position < |list| then
      var address := list[position];
      s.WithQuery(slot, FormatAddress(address)).WithResolved(slot, Some(address.Position()))
    else
      s
  }

  /**
   * `searchPlace`: the top address of a non-empty reply becomes the slot's
   * coordinate; an exception, a null or an empty list changes nothing. Texts,
   * lists and the other slot are never touched.
   */
  function AfterSearch(s: Screen, slot: Slot, reply: Lookup): (r: Screen)
    ensures SameSlot(s, r, slot.Other())
    ensures r.Query(slot) == s.Query(slot) && r.Suggestions(slot) == s.Suggestions(slot)
    ensures Hits(reply) != [] ==> r.Resolved(slot) == Some(Hits(reply)[0].Position())
    ensures Hits(reply) == [] ==> r == s
  {
    var addresses := Hits(reply);
    if addresses != [] then s.WithResolved(slot, Some(addresses[0].Position())) else s
  }

  /**
   * `provideSearchSuggestions`: a non-empty reply replaces the slot's list; an
   * exception, a null or an empty list keeps the previous one. Texts,
   * coordinates and the other slot are never touched.
   */
  function AfterSuggestions(s: Screen, slot: Slot, reply: Lookup): (r: Screen)
    ensures SameSlot(s, r, slot.Other())
    ensures r.Query(slot) == s.Query(slot) && r.Resolved(slot) == s.Resolved(slot)
    ensures r.Suggestions(slot) == if Hits(reply) != [] then Hits(reply) else s.Suggestions(slot)
  {
    var addresses := Hits(reply);
    if addresses != [] then s.WithSuggestions(slot, addresses) else s
  }

  /** `swapSearchViewContents`: the texts and the coordinates change places, the lists stay. */
  function AfterSwap(s: Screen): (r: Screen)
    ensures r.Query(From) == s.Query(To) && r.Query(To) == s.Query(From)
    ensures r.Resolved(From) == s.Resolved(To) && r.Resolved(To) == s.Resolved(From)
    ensures r.Suggestions(From) == s.Suggestions(From) && r.Suggestions(To) == s.Suggestions(To)
  {
    s.(fromQuery := s.toQuery, toQuery := s.fromQuery,
       fromLatLng := s.toLatLng, toLatLng := s.fromLatLng)
  }

  /** Swapping twice gives back the original screen. */
  lemma SwapTwiceRestores(s: Screen)
    ensures AfterSwap(AfterSwap(s)) == s
  {
  }

  /**
   * `onQueryTextChange`: the field holds the typed text; suggestions are fetched
   * only when it is longer than two UTF-16 units. Typing never moves a
   * coordinate and never touches the other slot.
   */
  function AfterQueryChange(s: Screen, slot: Slot, text: string, reply: Lookup): (r: Screen)
    ensures SameSlot(s, r, slot.Other())
    ensures r.Query(slot) == text && r.Resolved(slot) == s.Resolved(slot)
    ensures r.Suggestions(slot)
         == if Utf16Length(text) > MinFetchLength && Hits(reply) != [] then Hits(reply)
            else s.Suggestions(slot)
  {
    var typed := s.WithQuery(slot, text);
    if Utf16Length(text) > MinFetchLength then AfterSuggestions(typed, slot, reply) else typed
  }

  /** Clicking a suggestion puts in the field exactly the label the dropdown showed for it. */
  lemma ClickShowsLabel(s: Screen, slot: Slot, position: nat)
    requires position < |s.Suggestions(slot)|
    ensures AfterSuggestionClick(s, slot, position).Query(slot) == Labels(s.Suggestions(slot))[position]
  {
  }

  /** The slot's coordinate, if set, is the position of an address the geocoder returned. */
  ghost predicate FromReply(p: Option<LatLng>, seen: set<Address>) {
    p.Some? ==> exists a :: a in seen && a.Position() == p.value
  }

  /**
   * Every coordinate and every suggestion on the screen came from some geocoder
   * reply in `seen` (not necessarily the slot's latest query: a later fetch of
   * suggestions does not reset the coordinate, and a swap moves it).
   */
  ghost predicate Grounded(s: Screen, seen: set<Address>) {
    FromReply(s.fromLatLng, seen) && FromReply(s.toLatLng, seen)
    && (forall i :: 0 <= i < |s.fromSuggestions| ==> s.fromSuggestions[i] in seen)
    && (forall i :: 0 <= i < |s.toSuggestions| ==> s.toSuggestions[i] in seen)
  }

  lemma GroundedInitial()
    ensures Grounded(Initial, {})
  {
  }

  /** More replies never unground a screen. */
  lemma GroundedGrows(s: Screen, seen: set<Address>, more: set<Address>)
    requires Grounded(s, seen)
    ensures Grounded(s, seen + more)
  {
    if s.fromLatLng.Some? {
      var a :| a in seen && a.Position() == s.fromLatLng.value;
      assert a in seen + more;
    }
    if s.toLatLng.Some? {
      var a :| a in seen && a.Position() == s.toLatLng.value;
      assert a in seen + more;
    }
  }

  lemma GroundedAfterSuggestionClick(s: Screen, seen: set<Address>, slot: Slot, position: nat)
    requires Grounded(s, seen)
    ensures Grounded(AfterSuggestionClick(s, slot, position), seen)
  {
    var r := AfterSuggestionClick(s, slot, position);
    if position < |s.Suggestions(slot)| {
      var a := s.Suggestions(slot)[position];
      assert a in s.Suggestions(slot);
      assert a in seen && a.Position() == r.Resolved(slot).value;
    }
  }

  lemma GroundedAfterSearch(s: Screen, seen: set<Address>, slot: Slot, reply: Lookup)
    requires Grounded(s, seen)
    ensures Grounded(AfterSearch(s, slot, reply), seen + Heard(reply))
  {
    GroundedGrows(s, seen, Heard(reply));
    if Hits(reply) != [] {
      var a := Hits(reply)[0];
      assert a in Heard(reply);
      assert a in seen + Heard(reply);
    }
  }

  lemma GroundedAfterSuggestions(s: Screen, seen: set<Address>, slot: Slot, reply: Lookup)
    requires Grounded(s, seen)
    ensures Grounded(AfterSuggestions(s, slot, reply), seen + Heard(reply))
  {
    GroundedGrows(s, seen, Heard(reply));
  }

  lemma GroundedAfterSwap(s: Screen, seen: set<Address>)
    requires Grounded(s, seen)
    ensures Grounded(AfterSwap(s), seen)
  {
  }

  lemma GroundedAfterQueryChange(s: Screen, seen: set<Address>, slot: Slot, text: string, reply: Lookup)
    requires Grounded(s, seen)
    ensures Grounded(AfterQueryChange(s, slot, text, reply), seen + Heard(reply))
  {
    var typed := s.WithQuery(slot, text);
    assert Grounded(typed, seen);
    GroundedAfterSuggestions(typed, seen, slot, reply);
    GroundedGrows(typed, seen, Heard(reply));
  }

  /**
   * The map calls `log` are drawn from `from` and `to`: before the first redraw
   * there are no points, and after it the latest redraw, which begins at
   * `start`, is a redraw of `from` and `to` with nothing drawn after it.
   */
  ghost predicate DrawnFrom(log: seq<Command>, start: nat, from: Option<LatLng>, to: Option<LatLng>) {
    if log == [] then from.None? && to.None?
    else start <= |log| && log[start..] == Redraw(from, to)
  }

  /** Appending four pieces one by one appends their concatenation. */
  lemma ConcatFour<T>(log: seq<T>, a: seq<T>, b: seq<T>, c: seq<T>, d: seq<T>)
    ensures log + a + b + c + d == log + (a + b + c + d)
  {
  }

  /**
   * The activity. The two search views' texts, the two coordinates and the two
   * suggestion lists are its fields; `drawn` is every call made on the map and
   * the distance label, `requests` every geocoder call, and the ghost `seen`
   * every address a geocoder reply contained.
   */
  class MainActivity {
    var fromQuery: string
    var toQuery: string
    var fromLatLng: Option<LatLng>
    var toLatLng: Option<LatLng>
    var fromSuggestionAddresses: seq<Address>
    var toSuggestionAddresses: seq<Address>
    var drawn: seq<Command>
    var requests: seq<GeocodeRequest>
    ghost var seen: set<Address>
    ghost var lastRedraw: nat         // where in `drawn` the latest redraw begins

    /** The slot fields as a `Screen`. */
    function Snapshot(): Screen
      reads this`fromQuery, this`toQuery, this`fromLatLng, this`toLatLng
      reads this`fromSuggestionAddresses, this`toSuggestionAddresses
    {
      Screen(fromQuery, toQuery, fromLatLng, toLatLng, fromSuggestionAddresses, toSuggestionAddresses)
    }

    /** The map is drawn from the two current coordinates. */
    ghost predicate MapInSync()
      reads this`drawn, this`lastRedraw, this`fromLatLng, this`toLatLng
    {
      DrawnFrom(drawn, lastRedraw, fromLatLng, toLatLng)
    }

    /** Between two handlers the map shows exactly the annotations of the current coordinates. */
    lemma MapShowsSlots()
      requires Valid() && drawn != []
      ensures OnScreen(drawn) == Redraw(fromLatLng, toLatLng)[1..]
    {
      assert drawn == drawn[..lastRedraw] + drawn[lastRedraw..];
      OnScreenAfterRedraw(drawn[..lastRedraw], fromLatLng, toLatLng);
    }

    ghost predicate Valid()
      reads this
    {
      Grounded(Snapshot(), seen) && MapInSync()
    }

    constructor ()
      ensures Valid()
      ensures Snapshot() == Initial && drawn == [] && requests == [] && seen == {}
    {
      fromQuery, toQuery := "", "";
      fromLatLng, toLatLng := None, None;
      fromSuggestionAddresses, toSuggestionAddresses := [], [];
      drawn, requests := [], [];
      seen, lastRedraw := {}, 0;
      GroundedInitial();
    }

    /** `addOverlays`: the circle, the segment and the square at `p`. */
    method AddOverlays(p: LatLng)
      modifies this`drawn
      ensures drawn == old(drawn) + Overlays(p)
    {
      drawn := drawn + [AddCircle(p, CircleRadiusMeters)];
      drawn := drawn + [AddOffsetSegment(p)];
      drawn := drawn + [AddSquare(p)];
    }

    /** Move the camera to `p`, then animate the zoom. */
    method CenterCamera(p: LatLng)
      modifies this`drawn
      ensures drawn == old(drawn) + CenterOn(p)
    {
      drawn := drawn + [MoveCamera(p)];
      drawn := drawn + [AnimateZoom(CameraZoom, CameraAnimationMs)];
    }

    /** `calculateDistance`: the distance label, set only when both points are there. */
    method CalculateDistance()
      modifies this`drawn
      ensures drawn == old(drawn) + if fromLatLng.Some? && toLatLng.Some?
                                    then [SetDistanceKm(fromLatLng.value, toLatLng.value)] else []
    {
      if fromLatLng.Some? && toLatLng.Some? {
        drawn := drawn + [SetDistanceKm(fromLatLng.value, toLatLng.value)];
      }
    }

    /** The From block of a redraw: green marker, camera, overlays. */
    method DrawFrom()
      modifies this`drawn
      ensures drawn == old(drawn) + FromCommands(fromLatLng)
    {
      if fromLatLng.Some? {
        var p := fromLatLng.value;
        drawn := drawn + [AddMarker(p, FromTitle, Green)];
        CenterCamera(p);
        AddOverlays(p);
      }
    }

    /** The To block of a redraw: red marker, camera only without a From point, overlays. */
    method DrawTo()
      modifies this`drawn
      ensures drawn == old(drawn) + ToCommands(toLatLng, fromLatLng.None?)
    {
      if toLatLng.Some? {
        var p := toLatLng.value;
        drawn := drawn + [AddMarker(p, ToTitle, Red)];
        if fromLatLng == None {
          CenterCamera(p);
        }
        AddOverlays(p);
      }
    }

    /** The distance block of a redraw: connector and distance, or "Distance: N/A". */
    method DrawDistance()
      modifies this`drawn
      ensures drawn == old(drawn) + DistanceCommands(fromLatLng, toLatLng)
    {
      if fromLatLng.Some? && toLatLng.Some? {
        drawn := drawn + [AddConnector(fromLatLng.value, toLatLng.value)];
        CalculateDistance();
      } else {
        drawn := drawn + [SetDistanceText(DistanceUnavailable)];
      }
    }

    /**
     * `updateMapWithFromTo`: clear the map, draw the From block, the To block
     * and the distance block.
     */
    method UpdateMapWithFromTo()
      modifies this`drawn, this`lastRedraw
      ensures drawn == old(drawn) + Redraw(fromLatLng, toLatLng)
      ensures lastRedraw == |old(drawn)| && MapInSync()
    {
      lastRedraw := |drawn|;
      drawn := drawn + [Clear];
      DrawFrom();
      DrawTo();
      DrawDistance();
      ConcatFour(old(drawn), [Clear], FromCommands(fromLatLng), ToCommands(toLatLng, fromLatLng.None?),
                 DistanceCommands(fromLatLng, toLatLng));
    }

    /** Write the slot's search text (`searchView.setQuery(text, false)`). */
    method SetQuery(slot: Slot, text: string)
      modifies this`fromQuery, this`toQuery
      ensures Snapshot() == old(Snapshot()).WithQuery(slot, text)
    {
      if slot == From { fromQuery := text; } else { toQuery := text; }
    }

    /** Write the slot's coordinate (`if (isFrom) fromLatLng = … else toLatLng = …`). */
    method SetResolved(slot: Slot, latLng: LatLng)
      modifies this`fromLatLng, this`toLatLng
      ensures Snapshot() == old(Snapshot()).WithResolved(slot, Some(latLng))
    {
      if slot == From { fromLatLng := Some(latLng); } else { toLatLng := Some(latLng); }
    }

    /** Write the slot's suggestion list. */
    method SetSuggestions(slot: Slot, addresses: seq<Address>)
      modifies this`fromSuggestionAddresses, this`toSuggestionAddresses
      ensures Snapshot() == old(Snapshot()).WithSuggestions(slot, addresses)
    {
      if slot == From { fromSuggestionAddresses := addresses; } else { toSuggestionAddresses := addresses; }
    }

    /**
     * `onSuggestionClick`: a click inside the slot's list resolves the slot to
     * that address and redraws; a click outside it does nothing. The event is
     * always consumed.
     */
    method OnSuggestionClick(slot: Slot, position: nat) returns (consumed: bool)
      requires Valid()
      modifies this`fromQuery, this`toQuery, this`fromLatLng, this`toLatLng, this`drawn, this`lastRedraw
      ensures Valid() && consumed
      ensures Snapshot() == AfterSuggestionClick(old(Snapshot()), slot, position)
      ensures drawn == if position < |old(Snapshot()).Suggestions(slot)|
                       then old(drawn) + Redraw(fromLatLng, toLatLng) else old(drawn)
    {
      ghost var s0 := Snapshot();
      var addresses := Snapshot().Suggestions(slot);
      if position < |addresses| {
        var address := addresses[position];
        var text := FormatAddress(address);
        SetQuery(slot, text);
        SetResolved(slot, address.Position());
        GroundedAfterSuggestionClick(s0, seen, slot, position);
        UpdateMapWithFromTo();
      }
      consumed := true;
    }

    /** `swapSearchViewContents`: exchange the texts and the coordinates, then redraw. */
    method SwapSearchViewContents()
      requires Valid()
      modifies this`fromQuery, this`toQuery, this`fromLatLng, this`toLatLng, this`drawn, this`lastRedraw
      ensures Valid()
      ensures Snapshot() == AfterSwap(old(Snapshot()))
      ensures drawn == old(drawn) + Redraw(fromLatLng, toLatLng)
    {
      ghost var s0 := Snapshot();
      var fromText := fromQuery;
      var toText := toQuery;
      fromQuery := toText;
      toQuery := fromText;
      var tempLatLng := fromLatLng;
      fromLatLng := toLatLng;
      toLatLng := tempLatLng;
      GroundedAfterSwap(s0, seen);
      UpdateMapWithFromTo();
    }

    /**
     * `searchPlace`: ask the geocoder for one result; on a non-empty reply
     * resolve the slot to the top address and redraw, otherwise do nothing.
     */
    method SearchPlace(query: string, slot: Slot, reply: Lookup)
      requires Valid()
      modifies this`requests, this`seen, this`fromLatLng, this`toLatLng, this`drawn, this`lastRedraw
      ensures Valid()
      ensures Snapshot() == AfterSearch(old(Snapshot()), slot, reply)
      ensures requests == old(requests) + [GeocodeRequest(query, SearchLimit)]
      ensures drawn == if Hits(reply) != [] then old(drawn) + Redraw(fromLatLng, toLatLng) else old(drawn)
      ensures seen == old(seen) + Heard(reply)
    {
      ghost var s0 := Snapshot();
      requests := requests + [GeocodeRequest(query, SearchLimit)];
      GroundedAfterSearch(s0, seen, slot, reply);
      seen := seen + Heard(reply);
      var addresses := Hits(reply);
      if addresses != [] {
        var address := addresses[0];
        var latLng := address.Position();
        SetResolved(slot, latLng);
        UpdateMapWithFromTo();
      }
    }

    /**
     * `provideSearchSuggestions`: ask the geocoder for up to five results; a
     * non-empty reply becomes the slot's suggestion list, anything else keeps
     * the previous list. The map is not redrawn.
     */
    method ProvideSearchSuggestions(query: string, slot: Slot, reply: Lookup)
      requires Valid()
      modifies this`requests, this`seen, this`fromSuggestionAddresses, this`toSuggestionAddresses
      ensures Valid()
      ensures Snapshot() == AfterSuggestions(old(Snapshot()), slot, reply)
      ensures requests == old(requests) + [GeocodeRequest(query, SuggestionLimit)]
      ensures seen == old(seen) + Heard(reply)
    {
      ghost var s0 := Snapshot();
      requests := requests + [GeocodeRequest(query, SuggestionLimit)];
      GroundedAfterSuggestions(s0, seen, slot, reply);
      seen := seen + Heard(reply);
      var addresses := Hits(reply);
      if addresses != [] {
        SetSuggestions(slot, addresses);
      }
    }

    /** `onQueryTextSubmit`: look up a non-null submitted text. The event is always consumed. */
    method OnQueryTextSubmit(slot: Slot, query: Option<string>, reply: Lookup) returns (consumed: bool)
      requires Valid()
      modifies this`requests, this`seen, this`fromLatLng, this`toLatLng, this`drawn, this`lastRedraw
      ensures Valid() && consumed
      ensures Snapshot() == if query.Some? then AfterSearch(old(Snapshot()), slot, reply) else old(Snapshot())
      ensures requests == old(requests) + if query.Some? then [GeocodeRequest(query.value, SearchLimit)] else []
      ensures drawn == if query.Some? && Hits(reply) != [] then old(drawn) + Redraw(fromLatLng, toLatLng)
                       else old(drawn)
    {
      if query.Some? {
        SearchPlace(query.value, slot, reply);
      }
      consumed := true;
    }

    /**
     * `onQueryTextChange`: the field now holds `newText`; a non-null text longer
     * than two UTF-16 units asks for suggestions, a shorter one asks nothing.
     * The map is never redrawn and the event is always consumed.
     */
    method OnQueryTextChange(slot: Slot, newText: Option<string>, reply: Lookup) returns (consumed: bool)
      requires Valid()
      modifies this`fromQuery, this`toQuery, this`requests, this`seen
      modifies this`fromSuggestionAddresses, this`toSuggestionAddresses
      ensures Valid() && consumed
      ensures Snapshot() == if newText.Some? then AfterQueryChange(old(Snapshot()), slot, newText.value, reply)
                            else old(Snapshot())
      ensures requests == old(requests)
                        + if newText.Some? && Utf16Length(newText.value) > MinFetchLength
                          then [GeocodeRequest(newText.value, SuggestionLimit)] else []
    {
      if newText.Some? {
        var text := newText.value;
        SetQuery(slot, text);
        if Utf16Length(text) > MinFetchLength {
          ProvideSearchSuggestions(text, slot, reply);
        }
      }
      consumed := true;
    }
  }
}
