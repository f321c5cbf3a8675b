/** The interaction state of App.tsx's `AppContent`: the category filters, the
    circle-drawing mode and the cluster mode, with the handlers that change them. */
module AppState {
  import opened Wrappers
  import opened Categories
  import opened Catchment
  import opened FeatureExtraction

  /** The filters the session starts with. */
  const InitialFilters: Filters :=
    map[Park := true, Cami := false, SaglikTesisi := true, Okul := false, TatliSuCesmesi := true,
        Eczane := false, ToplanmaAlani := false, BisikletParkAlani := false,
        PaylasimliBisikletIstasyonu := false, Otopark := true, HavaOlcumIstasyonu := false,
        Kamera := false, TarihiTuristikYerler := false]

  /** Below this zoom level points are never shown one by one. */
  const ClusterZoomThreshold: real := 14.0

  /** `toggleFilter(type)`: `{...prev, [type]: !prev[type]}`. The named category's flag is flipped
      (a missing flag, which reads as off, becomes on) and every other flag is kept. */
  function Toggled(filters: Filters, t: LocationType): (r: Filters)
    ensures t in r && Enabled(r, t) == !Enabled(filters, t)
    ensures forall u :: u != t ==> (u in r <==> u in filters)
    ensures forall u :: u != t && u in filters ==> r[u] == filters[u]
  {
    filters[t := !Enabled(filters, t)]
  }

  /** Toggling the same category twice restores the filter map. */
  lemma ToggleTwiceRestores(filters: Filters, t: LocationType)
    requires t in filters
    ensures Toggled(Toggled(filters, t), t) == filters
  {
    var r := Toggled(Toggled(filters, t), t);
    assert r.Keys == filters.Keys;
  }

  /** The drawing part of the state: `isDrawing`, `isDragging`, `startPoint`, `previewCircle`
      and the committed `circleData`. */
  datatype DrawState = DrawState(
    isDrawing: bool,
    isDragging: bool,
    startPoint: Option<LngLat>,
    previewCircle: Option<Circle>,
    circleData: Option<Circle>)

  const Idle := DrawState(false, false, None, None, None)

  /** What every handler keeps true: a drag happens only in draw mode and always has a start
      point, and a preview exists only during a drag. */
  predicate WellFormed(s: DrawState)
  {
    && (s.isDragging ==> s.isDrawing)
    && (s.isDragging <==> s.startPoint.Some?)
    && (s.previewCircle.Some? ==> s.isDragging)
  }

  /** `exitDrawMode`: leaves draw mode, forgets the drag and the preview, keeps the committed circle. */
  function AfterExitDrawMode(s: DrawState): (r: DrawState)
    ensures !r.isDrawing && !r.isDragging && r.startPoint.None? && r.previewCircle.None?
    ensures r.circleData == s.circleData
    ensures WellFormed(r)
  {
    s.(isDrawing := false, startPoint := None, previewCircle := None, isDragging := false)
  }

  /** `handleMouseDown`: ignored unless drawing; otherwise starts a drag at the pointer. */
  function AfterMouseDown(s: DrawState, p: LngLat): (r: DrawState)
    ensures !s.isDrawing ==> r == s
    ensures s.isDrawing ==> r.isDragging && r.startPoint == Some(p)
    ensures r.isDrawing == s.isDrawing && r.circleData == s.circleData && r.previewCircle == s.previewCircle
    ensures WellFormed(s) ==> WellFormed(r)
  {
    if !s.isDrawing then s
    else s.(startPoint := Some(p), isDragging := true)
  }

  /** The guard of `handleMouseMove` and `handleMouseUp`: drawing, dragging, with a start point. */
  predicate InDrag(s: DrawState)
  {
    s.isDrawing && s.isDragging && s.startPoint.Some?
  }

  /** `handleMouseMove`: during a drag, the preview becomes the circle spanned by the start
      point and the pointer; otherwise nothing changes. */
  function AfterMouseMove(s: DrawState, p: LngLat): (r: DrawState)
    ensures !InDrag(s) ==> r == s
    ensures InDrag(s) ==> r.previewCircle == Some(Circle(s.startPoint.value, p))
    ensures r.isDrawing == s.isDrawing && r.isDragging == s.isDragging && r.startPoint == s.startPoint
    ensures r.circleData == s.circleData
    ensures WellFormed(s) ==> WellFormed(r)
  {
    if !InDrag(s) then s
    else s.(previewCircle := Some(Circle(s.startPoint.value, p)))
  }

  /** `handleMouseUp`: during a drag, commits the circle spanned by the start point and the
      pointer, replacing any earlier one, and leaves draw mode; otherwise nothing changes. */
  function AfterMouseUp(s: DrawState, p: LngLat): (r: DrawState)
    ensures !InDrag(s) ==> r == s
    ensures InDrag(s) ==> r.circleData == Some(Circle(s.startPoint.value, p))
    ensures InDrag(s) ==> !r.isDrawing && !r.isDragging && r.startPoint.None? && r.previewCircle.None?
    ensures WellFormed(s) ==> WellFormed(r)
  {
    if !InDrag(s) then s
    else AfterExitDrawMode(s.(circleData := Some(Circle(s.startPoint.value, p))))
  }

  /** The draw button: leaves draw mode when drawing; otherwise enters it and discards the
      committed circle. */
  function AfterDrawButton(s: DrawState): (r: DrawState)
    ensures s.isDrawing ==> r == AfterExitDrawMode(s)
    ensures !s.isDrawing ==> r.isDrawing && r.circleData.None?
    ensures !s.isDrawing ==> r.isDragging == s.isDragging && r.startPoint == s.startPoint && r.previewCircle == s.previewCircle
    ensures WellFormed(s) ==> WellFormed(r)
  {
    if s.isDrawing then AfterExitDrawMode(s)
    else s.(isDrawing := true, circleData := None)
  }

  /** The keydown listener: Ctrl+Shift leaves draw mode, but only while drawing. */
  function AfterKeyDown(s: DrawState, ctrlKey: bool, shiftKey: bool): (r: DrawState)
    ensures ctrlKey && shiftKey && s.isDrawing ==> r == AfterExitDrawMode(s)
    ensures !(ctrlKey && shiftKey && s.isDrawing) ==> r == s
  {
    if ctrlKey && shiftKey && s.isDrawing then AfterExitDrawMode(s) else s
  }

  /** The user events that reach the drawing state. */
  datatype DrawEvent =
    | MouseDown(p: LngLat)
    | MouseMove(p: LngLat)
    | MouseUp(p: LngLat)
    | DrawButton
    | KeyDown(ctrlKey: bool, shiftKey: bool)

  function Step(s: DrawState, e: DrawEvent): DrawState
  {
    match e
    case MouseDown(p) => AfterMouseDown(s, p)
    case MouseMove(p) => AfterMouseMove(s, p)
    case MouseUp(p) => AfterMouseUp(s, p)
    case DrawButton => AfterDrawButton(s)
    case KeyDown(c, sh) => AfterKeyDown(s, c, sh)
  }

  function Run(s: DrawState, events: seq<DrawEvent>): DrawState
    decreases |events|
  {
    if events == [] then s else Run(Step(s, events[0]), events[1..])
  }

  /** Every sequence of events keeps the drawing state well formed. */
  lemma {:induction false} RunPreservesWellFormed(s: DrawState, events: seq<DrawEvent>)
    requires WellFormed(s)
    ensures WellFormed(Run(s, events))
    decreases |events|
  {
    if events != [] {
      RunPreservesWellFormed(Step(s, events[0]), events[1..]);
    }
  }

  /** Without draw mode, pointer events change nothing. */
  lemma {:induction false} PointerIgnoredOutsideDrawMode(s: DrawState, events: seq<DrawEvent>)
    requires !s.isDrawing
    requires forall i :: 0 <= i < |events| ==> events[i].MouseDown? || events[i].MouseMove? || events[i].MouseUp?
    ensures Run(s, events) == s
    decreases |events|
  {
    if events != [] {
      assert Step(s, events[0]) == s;
      PointerIgnoredOutsideDrawMode(s, events[1..]);
    }
  }

  /** A whole gesture: press the draw button, press at `a`, move through any points,
      release at `b`. The committed circle is the one spanned by `a` and `b`, and the
      session is back out of draw mode. */
  lemma {:induction false} DrawGestureCommitsCircle(s: DrawState, a: LngLat, moves: seq<LngLat>, b: LngLat)
    requires WellFormed(s) && !s.isDrawing
    ensures var events := [DrawButton, MouseDown(a)] + seq(|moves|, i requires 0 <= i < |moves| => MouseMove(moves[i])) + [MouseUp(b)];
            var r := Run(s, events);
            r.circleData == Some(Circle(a, b)) && !r.isDrawing && !r.isDragging && r.previewCircle.None?
  {
    var s1 := Step(Step(s, DrawButton), MouseDown(a));
    assert InDrag(s1) && s1.startPoint == Some(a);
    var ms := seq(|moves|, i requires 0 <= i < |moves| => MouseMove(moves[i]));
    var s2 := MovesKeepDrag(s1, ms);
    RunAppend(s, [DrawButton, MouseDown(a)], ms, [MouseUp(b)]);
    assert Run(s, [DrawButton, MouseDown(a)]) == s1 by {
      var e := [DrawButton, MouseDown(a)];
      assert e[0] == DrawButton && e[1..] == [MouseDown(a)];
      assert Run(s, e) == Run(Step(s, DrawButton), [MouseDown(a)]);
      assert [MouseDown(a)][1..] == [];
      assert Run(Step(s, DrawButton), [MouseDown(a)]) == Run(s1, []);
    }
    assert Run(s2, [MouseUp(b)]) == AfterMouseUp(s2, b);
  }

  /** Pointer moves during a drag keep the drag and its start point. */
  lemma {:induction false} MovesKeepDrag(s: DrawState, ms: seq<DrawEvent>) returns (r: DrawState)
    requires InDrag(s)
    requires forall i :: 0 <= i < |ms| ==> ms[i].MouseMove?
    ensures r == Run(s, ms) && InDrag(r) && r.startPoint == s.startPoint
    decreases |ms|
  {
    if ms == [] {
      r := s;
    } else {
      r := MovesKeepDrag(Step(s, ms[0]), ms[1..]);
    }
  }

  lemma {:induction false} RunAppend(s: DrawState, e1: seq<DrawEvent>, e2: seq<DrawEvent>, e3: seq<DrawEvent>)
    ensures Run(s, e1 + e2 + e3) == Run(Run(Run(s, e1), e2), e3)
  {
    RunConcat(s, e1 + e2, e3);
    RunConcat(s, e1, e2);
  }

  lemma {:induction false} RunConcat(s: DrawState, e1: seq<DrawEvent>, e2: seq<DrawEvent>)
    ensures Run(s, e1 + e2) == Run(Run(s, e1), e2)
    decreases |e1|
  {
    if e1 == [] {
      assert e1 + e2 == e2;
    } else {
      assert (e1 + e2)[1..] == e1[1..] + e2;
      RunConcat(Step(s, e1[0]), e1[1..], e2);
    }
  }

  /** The cluster-mode effect: below zoom 14 cluster mode is switched on; it is never switched off. */
  function ForcedClusterMode(zoom: real, isClusterMode: bool): (r: bool)
    ensures zoom < ClusterZoomThreshold ==> r
    ensures isClusterMode ==> r
    ensures zoom >= ClusterZoomThreshold ==> r == isClusterMode
  {
    if zoom < ClusterZoomThreshold && !isClusterMode then true else isClusterMode
  }

  /** The cluster/point mode button: disabled below zoom 14, otherwise it flips the mode. */
  function AfterClusterButton(zoom: real, isClusterMode: bool): (r: bool)
    ensures zoom < ClusterZoomThreshold ==> r == isClusterMode
    ensures zoom >= ClusterZoomThreshold ==> r == !isClusterMode
  {
    if zoom < ClusterZoomThreshold then isClusterMode else !isClusterMode
  }

  /** The state hooks of `AppContent` that the handlers above change. */
  class AppContent {
    var locations: seq<Location>
    var filters: Filters
    var isDrawing: bool
    var isDragging: bool
    var startPoint: Option<LngLat>
    var previewCircle: Option<Circle>
    var circleData: Option<Circle>
    var isClusterMode: bool
    var zoom: real

    function Draw(): DrawState
      reads this
    {
      DrawState(isDrawing, isDragging, startPoint, previewCircle, circleData)
    }

    ghost predicate Valid()
      reads this
    {
      (forall t :: t in filters) && WellFormed(Draw())
    }

    /** The initial state: no locations, the default filters, not drawing, point mode, zoom 12. */
    constructor ()
      ensures Valid()
      ensures locations == [] && filters == InitialFilters && Draw() == Idle
      ensures !isClusterMode && zoom == 12.0
    {
      locations := [];
      filters := InitialFilters;
      isDrawing, isDragging := false, false;
      startPoint, previewCircle, circleData := None, None, None;
      isClusterMode := false;
      zoom := 12.0;
      new;
      forall t: LocationType ensures t in filters {
        AllTypesListsEachOnce(t);
        OccursIn(AllTypes, t);
      }
    }

    method ToggleFilter(t: LocationType)
      requires Valid()
      modifies this`filters
      ensures Valid()
      ensures filters == Toggled(old(filters), t)
    {
      filters := filters[t := !filters[t]];
    }

    method ExitDrawMode()
      requires Valid()
      modifies this`isDrawing, this`startPoint, this`previewCircle, this`isDragging
      ensures Valid()
      ensures Draw() == AfterExitDrawMode(old(Draw()))
    {
      isDrawing := false;
      startPoint := None;
      previewCircle := None;
      isDragging := false;
    }

    method HandleMouseDown(p: LngLat)
      requires Valid()
      modifies this`startPoint, this`isDragging
      ensures Valid()
      ensures Draw() == AfterMouseDown(old(Draw()), p)
    {
      if !isDrawing {
        return;
      }
      startPoint := Some(p);
      isDragging := true;
    }

    method HandleMouseMove(p: LngLat)
      requires Valid()
      modifies this`previewCircle
      ensures Valid()
      ensures Draw() == AfterMouseMove(old(Draw()), p)
    {
      if !isDrawing || !isDragging || startPoint.None? {
        return;
      }
      previewCircle := Some(Circle(startPoint.value, p));
    }

    method HandleMouseUp(p: LngLat)
      requires Valid()
      modifies this`circleData, this`isDrawing, this`startPoint, this`previewCircle, this`isDragging
      ensures Valid()
      ensures Draw() == AfterMouseUp(old(Draw()), p)
    {
      if !isDrawing || !isDragging || startPoint.None? {
        return;
      }
      circleData := Some(Circle(startPoint.value, p));
      ExitDrawMode();
    }

    method DrawButtonClick()
      requires Valid()
      modifies this`circleData, this`isDrawing, this`startPoint, this`previewCircle, this`isDragging
      ensures Valid()
      ensures Draw() == AfterDrawButton(old(Draw()))
    {
      if isDrawing {
        ExitDrawMode();
      } else {
        isDrawing := true;
        circleData := None;
      }
    }

    method HandleKeyDown(ctrlKey: bool, shiftKey: bool)
      requires Valid()
      modifies this`isDrawing, this`startPoint, this`previewCircle, this`isDragging
      ensures Valid()
      ensures Draw() == AfterKeyDown(old(Draw()), ctrlKey, shiftKey)
    {
      if ctrlKey && shiftKey && isDrawing {
        ExitDrawMode();
      }
    }

    /** `loadGeoJSONData`: fetch the categories one after another and extract their
        features; the locations are replaced only when every step succeeded, since any
        failure is caught and leaves them as they were. */
    method LoadGeoJsonData(fetched: Fetched, idOf: (LocationType, nat) -> real)
      modifies this`locations
      ensures LoadAll(fetched, idOf, LoadOrder).Success? ==> locations == LoadAll(fetched, idOf, LoadOrder).value
      ensures LoadAll(fetched, idOf, LoadOrder).Failure? ==> locations == old(locations)
    {
      var all: seq<Location> := [];
      var k := 0;
      while k < |LoadOrder|
        invariant 0 <= k <= |LoadOrder|
        invariant LoadAll(fetched, idOf, LoadOrder[..k]) == Success(all)
      {
        var t := LoadOrder[k];
        assert LoadOrder[..k + 1][..k] == LoadOrder[..k];
        if fetched(t).None? {
          LoadFailureSticks(fetched, idOf, LoadOrder[..k + 1], LoadOrder[k + 1..]);
          assert LoadOrder[..k + 1] + LoadOrder[k + 1..] == LoadOrder;
          return;
        }
        var extracted := ExtractAll(fetched(t).value.features, t, idOf);
        if extracted.Failure? {
          LoadFailureSticks(fetched, idOf, LoadOrder[..k + 1], LoadOrder[k + 1..]);
          assert LoadOrder[..k + 1] + LoadOrder[k + 1..] == LoadOrder;
          return;
        }
        all := all + extracted.value;
        k := k + 1;
      }
      assert LoadOrder[..k] == LoadOrder;
      locations := all;
    }

    /** `onMove`: the map reports a new zoom level. */
    method OnMove(newZoom: real)
      modifies this`zoom
      ensures zoom == newZoom
    {
      zoom := newZoom;
    }

    /** The effect that watches the zoom level: afterwards, below zoom 14 cluster mode is on. */
    method ClusterModeEffect()
      modifies this`isClusterMode
      ensures isClusterMode == ForcedClusterMode(zoom, old(isClusterMode))
      ensures zoom < ClusterZoomThreshold ==> isClusterMode
    {
      if zoom < ClusterZoomThreshold && !isClusterMode {
        isClusterMode := true;
      }
    }

    method ClusterButtonClick()
      modifies this`isClusterMode
      ensures isClusterMode == AfterClusterButton(zoom, old(isClusterMode))
    {
      if !(zoom < ClusterZoomThreshold) {
        isClusterMode := !isClusterMode;
      }
    }
  }
}
