/**
 * What the screen sends to the map when it redraws the route (`updateMapWithFromTo`).
 * The map is an annotation sink: the screen never reads annotations back, so a
 * redraw is fully described by the ordered list of calls it makes. Overlay
 * geometry (the ±0.01° offsets) and styling are abstracted to "anchored at the
 * point"; the distance figure is recorded as "the distance between these two
 * points", never computed.
 */
module MapCommands {
  import opened Wrappers
  import opened Geo

  /** Radius of the decorative circle around each marker, in metres. */
  const CircleRadiusMeters := 1000
  /** Zoom level and animation length of every camera move. */
  const CameraZoom := 12
  const CameraAnimationMs := 2000
  /** Marker titles of the two slots. */
  const FromTitle := "From"
  const ToTitle := "To"
  /** The distance label when one of the points is missing. */
  const DistanceUnavailable := "Distance: N/A"

  /** Marker colours: From is green, To is red. */
  datatype Hue = Green | Red

  /** One call on the map, or on the distance label under it. */
  datatype Command =
    | Clear
    | AddMarker(position: LatLng, title: string, hue: Hue)
    | MoveCamera(target: LatLng)
    | AnimateZoom(zoom: int, durationMs: int)
    | AddCircle(center: LatLng, radiusMeters: int)
    | AddOffsetSegment(anchor: LatLng)    // the short blue line to (lat + 0.01, lng + 0.01)
    | AddSquare(anchor: LatLng)           // the green square spanning ±0.01° around the point
    | AddConnector(from: LatLng, to: LatLng)
    | SetDistanceKm(from: LatLng, to: LatLng)
    | SetDistanceText(text: string)

  /** What a command does, ignoring where: both distance outputs are one kind. */
  datatype Kind =
    ClearKind | MarkerKind | CameraKind | ZoomKind | CircleKind | SegmentKind | SquareKind
    | ConnectorKind | DistanceKind

  function KindOf(c: Command): Kind {
    match c
    case Clear => ClearKind
    case AddMarker(_, _, _) => MarkerKind
    case MoveCamera(_) => CameraKind
    case AnimateZoom(_, _) => ZoomKind
    case AddCircle(_, _) => CircleKind
    case AddOffsetSegment(_) => SegmentKind
    case AddSquare(_) => SquareKind
    case AddConnector(_, _) => ConnectorKind
    case SetDistanceKm(_, _) => DistanceKind
    case SetDistanceText(_) => DistanceKind
  }

  /** `addOverlays`: circle, segment and square, all anchored at `p`. */
  function Overlays(p: LatLng): seq<Command> {
    [AddCircle(p, CircleRadiusMeters), AddOffsetSegment(p), AddSquare(p)]
  }

  /** Move the camera to `p` and zoom in. */
  function CenterOn(p: LatLng): seq<Command> {
    [MoveCamera(p), AnimateZoom(CameraZoom, CameraAnimationMs)]
  }

  /** The From block: marker, camera, overlays. */
  function FromCommands(from: Option<LatLng>): seq<Command> {
    match from
    case None => []
    case Some(p) => [AddMarker(p, FromTitle, Green)] + CenterOn(p) + Overlays(p)
  }

  /** The To block: marker, camera only when there is no From point, overlays. */
  function ToCommands(to: Option<LatLng>, center: bool): seq<Command> {
    match to
    case None => []
    case Some(p) => [AddMarker(p, ToTitle, Red)] + (if center then CenterOn(p) else []) + Overlays(p)
  }

  /** The connecting line and the distance, or the not-available label. */
  function DistanceCommands(from: Option<LatLng>, to: Option<LatLng>): seq<Command> {
    if from.Some? && to.Some? then
      [AddConnector(from.value, to.value), SetDistanceKm(from.value, to.value)]
    else
      [SetDistanceText(DistanceUnavailable)]
  }

  /** `updateMapWithFromTo`: every call of one redraw, in order. */
  function Redraw(from: Option<LatLng>, to: Option<LatLng>): (r: seq<Command>)
  {
    [Clear] + FromCommands(from) + ToCommands(to, from.None?) + DistanceCommands(from, to)
  }

  /** `[c]` if `c` is of kind `kind`, else nothing. */
  function Pick(c: Command, kind: Kind): seq<Command> {
    if KindOf(c) == kind then [c] else []
  }

  /** The commands of `cmds` of kind `kind`, in order. */
  function Select(cmds: seq<Command>, kind: Kind): seq<Command> {
    if cmds == [] then [] else Pick(cmds[0], kind) + Select(cmds[1..], kind)
  }

  lemma SelectCons(c: Command, rest: seq<Command>, kind: Kind)
    ensures Select([c] + rest, kind) == Pick(c, kind) + Select(rest, kind)
  {
    assert ([c] + rest)[0] == c;
    assert ([c] + rest)[1..] == rest;
  }

  lemma {:induction false} SelectAppend(a: seq<Command>, b: seq<Command>, kind: Kind)
    ensures Select(a + b, kind) == Select(a, kind) + Select(b, kind)
    decreases |a|
  {
    if a == [] {
      assert a + b == b;
    } else {
      assert (a + b)[0] == a[0];
      assert (a + b)[1..] == a[1..] + b;
      SelectAppend(a[1..], b, kind);
    }
  }

  /** The overlay commands of one kind. */
  function OverlaysOfKind(p: LatLng, kind: Kind): seq<Command> {
    match kind
    case CircleKind => [AddCircle(p, CircleRadiusMeters)]
    case SegmentKind => [AddOffsetSegment(p)]
    case SquareKind => [AddSquare(p)]
    case _ => []
  }

  /** The camera commands of one kind. */
  function CenterOnOfKind(p: LatLng, kind: Kind): seq<Command> {
    match kind
    case CameraKind => [MoveCamera(p)]
    case ZoomKind => [AnimateZoom(CameraZoom, CameraAnimationMs)]
    case _ => []
  }

  /** The From block's commands of one kind. */
  function FromOfKind(from: Option<LatLng>, kind: Kind): seq<Command> {
    match from
    case None => []
    case Some(p) => Pick(AddMarker(p, FromTitle, Green), kind) + CenterOnOfKind(p, kind) + OverlaysOfKind(p, kind)
  }

  /** The To block's commands of one kind. */
  function ToOfKind(to: Option<LatLng>, center: bool, kind: Kind): seq<Command> {
    match to
    case None => []
    case Some(p) =>
      Pick(AddMarker(p, ToTitle, Red), kind) + (if center then CenterOnOfKind(p, kind) else [])
      + OverlaysOfKind(p, kind)
  }

  /** The distance block's commands of one kind. */
  function DistanceOfKind(from: Option<LatLng>, to: Option<LatLng>, kind: Kind): seq<Command> {
    if from.Some? && to.Some? then
      Pick(AddConnector(from.value, to.value), kind) + Pick(SetDistanceKm(from.value, to.value), kind)
    else
      Pick(SetDistanceText(DistanceUnavailable), kind)
  }

  lemma SelectOverlays(p: LatLng, kind: Kind)
    ensures Select(Overlays(p), kind) == OverlaysOfKind(p, kind)
  {
    var x, y, z := AddCircle(p, CircleRadiusMeters), AddOffsetSegment(p), AddSquare(p);
    assert Overlays(p) == [x] + ([y] + ([z] + []));
    SelectCons(x, [y, z], kind);
    SelectCons(y, [z], kind);
    SelectCons(z, [], kind);
  }

  lemma SelectCenterOn(p: LatLng, kind: Kind)
    ensures Select(CenterOn(p), kind) == CenterOnOfKind(p, kind)
  {
    var x, y := MoveCamera(p), AnimateZoom(CameraZoom, CameraAnimationMs);
    assert CenterOn(p) == [x] + ([y] + []);
    SelectCons(x, [y], kind);
    SelectCons(y, [], kind);
  }

  lemma SelectFrom(from: Option<LatLng>, kind: Kind)
    ensures Select(FromCommands(from), kind) == FromOfKind(from, kind)
  {
    if from.Some? {
      var p := from.value;
      SelectAppend([AddMarker(p, FromTitle, Green)] + CenterOn(p), Overlays(p), kind);
      SelectCons(AddMarker(p, FromTitle, Green), CenterOn(p), kind);
      SelectCenterOn(p, kind);
      SelectOverlays(p, kind);
    }
  }

  lemma SelectTo(to: Option<LatLng>, center: bool, kind: Kind)
    ensures Select(ToCommands(to, center), kind) == ToOfKind(to, center, kind)
  {
    if to.Some? {
      var p := to.value;
      var mid := if center then CenterOn(p) else [];
      SelectAppend([AddMarker(p, ToTitle, Red)] + mid, Overlays(p), kind);
      SelectCons(AddMarker(p, ToTitle, Red), mid, kind);
      SelectCenterOn(p, kind);
      SelectOverlays(p, kind);
    }
  }

  lemma SelectDistance(from: Option<LatLng>, to: Option<LatLng>, kind: Kind)
    ensures Select(DistanceCommands(from, to), kind) == DistanceOfKind(from, to, kind)
  {
    if from.Some? && to.Some? {
      var x, y := AddConnector(from.value, to.value), SetDistanceKm(from.value, to.value);
      assert DistanceCommands(from, to) == [x] + ([y] + []);
      SelectCons(x, [y], kind);
      SelectCons(y, [], kind);
    } else {
      SelectCons(SetDistanceText(DistanceUnavailable), [], kind);
    }
  }

  /** A marker `title`/`hue` at the slot's point, if it has one. */
  function MarkerFor(slot: Option<LatLng>, title: string, hue: Hue): seq<Command> {
    if slot.Some? then [AddMarker(slot.value, title, hue)] else []
  }

  /** One command `make(p)` for each point that is set, From first. */
  function PerPoint(from: Option<LatLng>, to: Option<LatLng>, make: LatLng -> Command): seq<Command> {
    (if from.Some? then [make(from.value)] else []) + (if to.Some? then [make(to.value)] else [])
  }

  /**
   * What a redraw must contain, kind by kind: one clear; a marker per point that
   * is set, From (green) before To (red); one camera move, to From when it is set
   * and otherwise to To, and none without points; one circle, segment and square
   * per point; the connecting line and the distance only when both points are set,
   * and otherwise the "Distance: N/A" text.
   */
  function Expected(from: Option<LatLng>, to: Option<LatLng>, kind: Kind): seq<Command> {
    match kind
    case ClearKind => [Clear]
    case MarkerKind => MarkerFor(from, FromTitle, Green) + MarkerFor(to, ToTitle, Red)
    case CameraKind =>
      if from.Some? then [MoveCamera(from.value)]
      else if to.Some? then [MoveCamera(to.value)]
      else []
    case ZoomKind =>
      if from.Some? || to.Some? then [AnimateZoom(CameraZoom, CameraAnimationMs)] else []
    case CircleKind => PerPoint(from, to, p => AddCircle(p, CircleRadiusMeters))
    case SegmentKind => PerPoint(from, to, p => AddOffsetSegment(p))
    case SquareKind => PerPoint(from, to, p => AddSquare(p))
    case ConnectorKind =>
      if from.Some? && to.Some? then [AddConnector(from.value, to.value)] else []
    case DistanceKind =>
      if from.Some? && to.Some? then [SetDistanceKm(from.value, to.value)]
      else [SetDistanceText(DistanceUnavailable)]
  }

  lemma ExpectedByBlock(from: Option<LatLng>, to: Option<LatLng>, kind: Kind)
    ensures Pick(Clear, kind) + FromOfKind(from, kind) + ToOfKind(to, from.None?, kind)
          + DistanceOfKind(from, to, kind) == Expected(from, to, kind)
  {
    match kind
    case ClearKind =>
    case MarkerKind =>
    case CameraKind =>
    case ZoomKind =>
    case CircleKind =>
    case SegmentKind =>
    case SquareKind =>
    case ConnectorKind =>
    case DistanceKind =>
  }

  /** A redraw holds, of every kind, exactly the commands `Expected` lists, in that order. */
  lemma RedrawByKind(from: Option<LatLng>, to: Option<LatLng>, kind: Kind)
    ensures Select(Redraw(from, to), kind) == Expected(from, to, kind)
  {
    var a, b, c, d := [Clear], FromCommands(from), ToCommands(to, from.None?), DistanceCommands(from, to);
    SelectAppend(a + b + c, d, kind);
    SelectAppend(a + b, c, kind);
    SelectAppend(a, b, kind);
    SelectCons(Clear, [], kind);
    SelectFrom(from, kind);
    SelectTo(to, from.None?, kind);
    SelectDistance(from, to, kind);
    ExpectedByBlock(from, to, kind);
  }

  /** A redraw clears the map first, and only then. */
  lemma RedrawClearsFirst(from: Option<LatLng>, to: Option<LatLng>)
    ensures Redraw(from, to)[0] == Clear
    ensures Select(Redraw(from, to), ClearKind) == [Clear]
  {
    RedrawByKind(from, to, ClearKind);
  }

  /** Exactly one marker per point that is set: From (green) then To (red). */
  lemma RedrawMarkers(from: Option<LatLng>, to: Option<LatLng>)
    ensures Select(Redraw(from, to), MarkerKind)
         == MarkerFor(from, FromTitle, Green) + MarkerFor(to, ToTitle, Red)
  {
    RedrawByKind(from, to, MarkerKind);
  }

  /** The camera goes to From when it is set, else to To when it is set, else nowhere. */
  lemma RedrawCamera(from: Option<LatLng>, to: Option<LatLng>)
    ensures Select(Redraw(from, to), CameraKind)
         == if from.Some? then [MoveCamera(from.value)]
            else if to.Some? then [MoveCamera(to.value)]
            else []
  {
    RedrawByKind(from, to, CameraKind);
  }

  /** One 1000 m circle, one segment and one square per marker, at the marker's point. */
  lemma RedrawOverlays(from: Option<LatLng>, to: Option<LatLng>)
    ensures Select(Redraw(from, to), CircleKind) == PerPoint(from, to, p => AddCircle(p, CircleRadiusMeters))
    ensures Select(Redraw(from, to), SegmentKind) == PerPoint(from, to, p => AddOffsetSegment(p))
    ensures Select(Redraw(from, to), SquareKind) == PerPoint(from, to, p => AddSquare(p))
  {
    RedrawByKind(from, to, CircleKind);
    RedrawByKind(from, to, SegmentKind);
    RedrawByKind(from, to, SquareKind);
  }

  /** A connecting line and a distance iff both points are set; otherwise "Distance: N/A". */
  lemma RedrawDistance(from: Option<LatLng>, to: Option<LatLng>)
    ensures Select(Redraw(from, to), ConnectorKind)
         == if from.Some? && to.Some? then [AddConnector(from.value, to.value)] else []
    ensures Select(Redraw(from, to), DistanceKind)
         == if from.Some? && to.Some? then [SetDistanceKm(from.value, to.value)]
            else [SetDistanceText(DistanceUnavailable)]
  {
    RedrawByKind(from, to, ConnectorKind);
    RedrawByKind(from, to, DistanceKind);
  }

  /**
   * The layout of a redraw, position by position: the clear, then the From block
   * (marker, camera, circle, segment, square), then the To block (marker, a
   * camera move only without a From point, circle, segment, square), and the
   * distance output last. Each marker comes before its own overlays, every From
   * command before every To command.
   */
  lemma RedrawLayout(from: Option<LatLng>, to: Option<LatLng>)
    ensures var r := Redraw(from, to);
      var k := if from.Some? then 7 else 1;
      var m := if to.None? then k else if from.Some? then k + 4 else k + 6;
      && |r| == m + (if from.Some? && to.Some? then 2 else 1)
      && r[0] == Clear
      && (from.Some? ==>
            var p := from.value;
            r[1..7] == [AddMarker(p, FromTitle, Green), MoveCamera(p),
                        AnimateZoom(CameraZoom, CameraAnimationMs),
                        AddCircle(p, CircleRadiusMeters), AddOffsetSegment(p), AddSquare(p)])
      && (to.Some? && from.Some? ==>
            var q := to.value;
            r[k..m] == [AddMarker(q, ToTitle, Red),
                        AddCircle(q, CircleRadiusMeters), AddOffsetSegment(q), AddSquare(q)])
      && (to.Some? && from.None? ==>
            var q := to.value;
            r[k..m] == [AddMarker(q, ToTitle, Red), MoveCamera(q),
                        AnimateZoom(CameraZoom, CameraAnimationMs),
                        AddCircle(q, CircleRadiusMeters), AddOffsetSegment(q), AddSquare(q)])
      && (from.Some? && to.Some? ==>
            r[m..] == [AddConnector(from.value, to.value), SetDistanceKm(from.value, to.value)])
      && (from.None? || to.None? ==> r[m..] == [SetDistanceText(DistanceUnavailable)])
  {
    var r := Redraw(from, to);
    var a, b, c, d := [Clear], FromCommands(from), ToCommands(to, from.None?), DistanceCommands(from, to);
    assert r == a + b + c + d;
    assert r[1..1 + |b|] == b;
    assert r[1 + |b|..1 + |b| + |c|] == c;
    assert r[1 + |b| + |c|..] == d;
  }

  /**
   * The command at `i` is whole: a circle is directly followed by its segment and
   * square at the same anchor, a camera move directly by the zoom animation.
   */
  predicate GroupAt(cmds: seq<Command>, i: int)
    requires 0 <= i < |cmds|
  {
    (cmds[i].AddCircle? ==>
       i + 2 < |cmds| && cmds[i + 1] == AddOffsetSegment(cmds[i].center)
       && cmds[i + 2] == AddSquare(cmds[i].center))
    && (cmds[i].MoveCamera? ==>
          i + 1 < |cmds| && cmds[i + 1] == AnimateZoom(CameraZoom, CameraAnimationMs))
  }

  predicate GroupsIntact(cmds: seq<Command>) {
    forall i :: 0 <= i < |cmds| ==> GroupAt(cmds, i)
  }

  lemma GroupsIntactAppend(a: seq<Command>, b: seq<Command>)
    requires GroupsIntact(a) && GroupsIntact(b)
    ensures GroupsIntact(a + b)
  {
    var ab := a + b;
    forall i | 0 <= i < |ab| ensures GroupAt(ab, i) {
      if i < |a| {
        assert GroupAt(a, i);
        assert ab[i] == a[i];
        if a[i].AddCircle? {
          assert ab[i + 1] == a[i + 1] && ab[i + 2] == a[i + 2];
        }
        if a[i].MoveCamera? {
          assert ab[i + 1] == a[i + 1];
        }
      } else {
        var k := i - |a|;
        assert GroupAt(b, k);
        assert ab[i] == b[k];
        if b[k].AddCircle? {
          assert ab[i + 1] == b[k + 1] && ab[i + 2] == b[k + 2];
        }
        if b[k].MoveCamera? {
          assert ab[i + 1] == b[k + 1];
        }
      }
    }
  }

  /** In a redraw each overlay group and each camera move stays in one piece. */
  lemma RedrawGroupsIntact(from: Option<LatLng>, to: Option<LatLng>)
    ensures GroupsIntact(Redraw(from, to))
  {
    forall p: LatLng ensures GroupsIntact(Overlays(p)) && GroupsIntact(CenterOn(p)) {
    }
    var a, b, c, d := [Clear], FromCommands(from), ToCommands(to, from.None?), DistanceCommands(from, to);
    if from.Some? {
      var p := from.value;
      GroupsIntactAppend([AddMarker(p, FromTitle, Green)], CenterOn(p));
      GroupsIntactAppend([AddMarker(p, FromTitle, Green)] + CenterOn(p), Overlays(p));
    }
    if to.Some? {
      var p := to.value;
      var mid := if from.None? then CenterOn(p) else [];
      GroupsIntactAppend([AddMarker(p, ToTitle, Red)], mid);
      GroupsIntactAppend([AddMarker(p, ToTitle, Red)] + mid, Overlays(p));
    }
    GroupsIntactAppend(a, b);
    GroupsIntactAppend(a + b, c);
    GroupsIntactAppend(a + b + c, d);
  }

  /**
   * What the map shows after the calls `log`: everything since the last `Clear`.
   * The distance commands write the text label under the map, which a clear does
   * not erase; every redraw ends with one, so the last distance command after the
   * last clear is also the label's current text.
   */
  function OnScreen(log: seq<Command>): seq<Command> {
    if log == [] then []
    else if log[|log| - 1] == Clear then []
    else OnScreen(log[..|log| - 1]) + [log[|log| - 1]]
  }

  lemma {:induction false} OnScreenAfterClear(log: seq<Command>, tail: seq<Command>)
    requires Clear !in tail
    ensures OnScreen(log + [Clear] + tail) == tail
    decreases |tail|
  {
    var u := log + [Clear] + tail;
    if tail != [] {
      var init := tail[..|tail| - 1];
      assert u[..|u| - 1] == log + [Clear] + init;
      assert u[|u| - 1] == tail[|tail| - 1];
      OnScreenAfterClear(log, init);
      assert init + [tail[|tail| - 1]] == tail;
    }
  }

  /** A redraw has exactly one clear, its first command. */
  lemma RedrawClearsOnlyFirst(from: Option<LatLng>, to: Option<LatLng>)
    ensures |Redraw(from, to)| >= 1 && Redraw(from, to)[0] == Clear
    ensures Clear !in Redraw(from, to)[1..]
  {
    var r := Redraw(from, to);
    RedrawClearsFirst(from, to);
    if Clear in r[1..] {
      var k :| 0 <= k < |r[1..]| && r[1..][k] == Clear;
      SelectTwo(r, 0, k + 1, ClearKind);
    }
  }

  /** Calls that begin with their only clear leave on screen everything after it. */
  lemma OnScreenAfterClearFirst(log: seq<Command>, cmds: seq<Command>)
    requires |cmds| >= 1 && cmds[0] == Clear && Clear !in cmds[1..]
    ensures OnScreen(log + cmds) == cmds[1..]
  {
    assert log + cmds == log + [Clear] + cmds[1..];
    OnScreenAfterClear(log, cmds[1..]);
  }

  /**
   * After a redraw the map shows exactly that redraw's annotations, whatever was
   * drawn before: no stale marker or overlay survives.
   */
  lemma OnScreenAfterRedraw(log: seq<Command>, from: Option<LatLng>, to: Option<LatLng>)
    ensures OnScreen(log + Redraw(from, to)) == Redraw(from, to)[1..]
  {
    RedrawClearsOnlyFirst(from, to);
    OnScreenAfterClearFirst(log, Redraw(from, to));
  }

  /** Two kept commands at different places both appear in the selection. */
  lemma {:induction false} SelectTwo(cmds: seq<Command>, i: int, j: int, kind: Kind)
    requires 0 <= i < j < |cmds| && KindOf(cmds[i]) == kind && KindOf(cmds[j]) == kind
    ensures |Select(cmds, kind)| >= 2
    decreases |cmds|
  {
    assert cmds == cmds[..j] + cmds[j..];
    SelectAppend(cmds[..j], cmds[j..], kind);
    SelectHas(cmds[..j], i, kind);
    SelectHas(cmds[j..], 0, kind);
  }

  lemma {:induction false} SelectHas(cmds: seq<Command>, i: int, kind: Kind)
    requires 0 <= i < |cmds| && KindOf(cmds[i]) == kind
    ensures |Select(cmds, kind)| >= 1
    decreases |cmds|
  {
    if i > 0 {
      SelectHas(cmds[1..], i - 1, kind);
    }
  }
}
