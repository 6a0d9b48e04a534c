/** The view: how the unit star map is laid out on a 300 by 200 pixel screen
    (a zoom factor and a pan offset), which star the pointer hovers over, and
    when the screen is redrawn. Painting itself is not modelled; `redraws`
    counts how often the screen would be repainted. */
module Viewport {
  import opened Wrappers
  import opened Geometry
  import opened World

  const ScreenWidth: int := 300
  const ScreenHeight: int := 200
  /** Pixels per unit of the star map when the view opens. */
  const InitialScale: int := 150
  /** One zoom step, in either direction. */
  const ZoomStep: int := 10
  /** Zooming out stops once the scale is down to this. */
  const MinScale: int := 50
  /** The pointer hovers over a star strictly closer than this many pixels. */
  const HoverRadius: real := 10.0

  /** Where a star at `loc` on the star map appears on the screen: its position scaled
      by `scale`, rounded down to whole pixels, then moved by the pan offset `shift`. */
  function ScreenLoc(loc: Point, scale: int, shift: Point): (r: Point)
    ensures r.x - shift.x <= loc.x * scale as real < r.x - shift.x + 1.0
    ensures r.y - shift.y <= loc.y * scale as real < r.y - shift.y + 1.0
    ensures (r.x - shift.x).Floor as real == r.x - shift.x && (r.y - shift.y).Floor as real == r.y - shift.y
  {
    Add(Floor(Multiply(loc, scale as real)), shift)
  }

  /** Panning by `delta` moves every star on the screen by exactly `delta`. */
  lemma ScreenLocPan(loc: Point, scale: int, shift: Point, delta: Point)
    ensures ScreenLoc(loc, scale, Add(shift, delta)) == Add(ScreenLoc(loc, scale, shift), delta)
  {
  }

  /** The centre of the star map is drawn exactly at the pan offset. */
  lemma ScreenLocCentre(scale: int, shift: Point)
    ensures ScreenLoc(Origin, scale, shift) == shift
  {
  }

  /** The scale after zooming in. */
  function ZoomedIn(scale: int): int {
    scale + ZoomStep
  }

  /** The scale after zooming out: one step down while the scale is above the minimum,
      otherwise unchanged. */
  function ZoomedOut(scale: int): int {
    if scale > MinScale then scale - ZoomStep else scale
  }

  /** A scale the view can reach from the initial one: a whole number of zoom steps,
      never below the minimum. */
  predicate ReachableScale(scale: int) {
    scale >= MinScale && scale % ZoomStep == 0
  }

  /** The view starts at a reachable scale, and zooming in or out keeps it reachable. */
  lemma {:induction false} ZoomKeepsScale(scale: int)
    requires ReachableScale(scale)
    ensures ReachableScale(ZoomedIn(scale)) && ReachableScale(ZoomedOut(scale))
    ensures ReachableScale(InitialScale)
  {
    assert (scale + ZoomStep) % ZoomStep == scale % ZoomStep;
    if scale > MinScale {
      assert (scale - ZoomStep) % ZoomStep == scale % ZoomStep;
    }
  }

  /** Zooming out undoes zooming in from any scale of at least the minimum; zooming in
      undoes zooming out above the minimum, and at the minimum zooming out does nothing. */
  lemma ZoomRoundTrip(scale: int)
    requires scale >= MinScale
    ensures ZoomedOut(ZoomedIn(scale)) == scale
    ensures scale > MinScale ==> ZoomedIn(ZoomedOut(scale)) == scale
    ensures scale == MinScale ==> ZoomedOut(scale) == scale
  {
  }

  /** Every star has been given a screen position. */
  predicate Drawn(stars: seq<Star>)
    reads stars
  {
    forall i :: 0 <= i < |stars| ==> stars[i].screen.Some?
  }

  /** The screen positions of drawn stars, in star order. */
  function Screens(stars: seq<Star>): seq<Point>
    reads stars
    requires Drawn(stars)
  {
    seq(|stars|, i requires 0 <= i < |stars| && stars[i].screen.Some? reads stars => stars[i].screen.value)
  }

  /** A screen position close enough to `point` to be hovered. */
  predicate InReach(point: Point, screen: Point) {
    SquareDist(point, screen) < HoverRadius * HoverRadius
  }

  /** The star the pointer at `point` hovers over, as an index into `screens`, scanning in
      order: the first star in reach, replaced later only by a star strictly closer. */
  function Hovered(point: Point, screens: seq<Point>): (r: Option<nat>)
    ensures r.Some? ==> r.value < |screens| && InReach(point, screens[r.value])
  {
    if |screens| == 0 then
      None
    else
      var prev := Hovered(point, screens[..|screens| - 1]);
      var last := screens[|screens| - 1];
      if InReach(point, last) &&
         (prev.None? || SquareDist(point, last) < SquareDist(point, screens[prev.value]))
      then Some(|screens| - 1)
      else prev
  }

  /** No star is hovered exactly when none is in reach; a hovered star is at least as
      close as every star in reach, and strictly closer than every earlier one in reach
      (ties go to the star that comes first). */
  lemma {:induction false} HoveredNearest(point: Point, screens: seq<Point>)
    ensures Hovered(point, screens).None? <==>
      forall i :: 0 <= i < |screens| ==> !InReach(point, screens[i])
    ensures var r := Hovered(point, screens);
      r.Some? ==> forall i :: 0 <= i < |screens| && InReach(point, screens[i]) ==>
        SquareDist(point, screens[r.value]) <= SquareDist(point, screens[i])
    ensures var r := Hovered(point, screens);
      r.Some? ==> forall i :: 0 <= i < r.value && InReach(point, screens[i]) ==>
        SquareDist(point, screens[r.value]) < SquareDist(point, screens[i])
  {
    if |screens| > 0 {
      var front := screens[..|screens| - 1];
      HoveredNearest(point, front);
      assert forall i :: 0 <= i < |front| ==> front[i] == screens[i];
    }
  }

  class View {
    const screenSize: Point
    /** The pan offset: where the centre of the star map is drawn. */
    var starMapShift: Point
    /** Pixels per unit of the star map. */
    var starMapScale: int
    var hoveredStar: Star?
    /** How many times the screen has been repainted. */
    ghost var redraws: nat

    constructor()
      ensures screenSize == Point(ScreenWidth as real, ScreenHeight as real)
      ensures starMapShift == Point((ScreenWidth / 2) as real, (ScreenHeight / 2) as real)
      ensures starMapScale == InitialScale && hoveredStar == null && redraws == 0
    {
      screenSize := Point(ScreenWidth as real, ScreenHeight as real);
      starMapShift := Point((ScreenWidth / 2) as real, (ScreenHeight / 2) as real);
      starMapScale := InitialScale;
      hoveredStar := null;
      redraws := 0;
    }

    /** Places `star` on the screen with the current scale and pan offset. */
    method SetScreenLoc(star: Star)
      modifies star`screen
      ensures star.screen == Some(ScreenLoc(star.loc, starMapScale, starMapShift))
    {
      var screen := Point(
        (star.loc.x * starMapScale as real).Floor as real + starMapShift.x,
        (star.loc.y * starMapScale as real).Floor as real + starMapShift.y);
      assert screen == ScreenLoc(star.loc, starMapScale, starMapShift);
      star.SetScreen(screen);
    }

    /** Repaints the screen, placing every star first. */
    method Draw(starMap: StarMap)
      modifies starMap.stars`screen, this`redraws
      ensures forall i :: 0 <= i < |starMap.stars| ==>
        starMap.stars[i].screen == Some(ScreenLoc(starMap.stars[i].loc, starMapScale, starMapShift))
      ensures redraws == old(redraws) + 1
    {
      var i := 0;
      while i < |starMap.stars|
        invariant 0 <= i <= |starMap.stars| && redraws == old(redraws)
        invariant forall j :: 0 <= j < i ==>
          starMap.stars[j].screen == Some(ScreenLoc(starMap.stars[j].loc, starMapScale, starMapShift))
      {
        SetScreenLoc(starMap.stars[i]);
        i := i + 1;
      }
      redraws := redraws + 1;
    }

    /** Pans the view by `delta` and repaints. */
    method ShiftFocus(delta: Point, starMap: StarMap)
      modifies this`starMapShift, this`redraws, starMap.stars`screen
      ensures starMapShift == Add(old(starMapShift), delta) && starMapScale == old(starMapScale)
      ensures hoveredStar == old(hoveredStar)
      ensures forall i :: 0 <= i < |starMap.stars| ==>
        starMap.stars[i].screen == Some(ScreenLoc(starMap.stars[i].loc, starMapScale, starMapShift))
      ensures redraws == old(redraws) + 1
    {
      starMapShift := Add(starMapShift, delta);
      Draw(starMap);
    }

    /** Zooms in one step and repaints. */
    method ZoomIn(starMap: StarMap)
      modifies this`starMapScale, this`redraws, starMap.stars`screen
      ensures starMapScale == ZoomedIn(old(starMapScale)) && starMapShift == old(starMapShift)
      ensures hoveredStar == old(hoveredStar)
      ensures forall i :: 0 <= i < |starMap.stars| ==>
        starMap.stars[i].screen == Some(ScreenLoc(starMap.stars[i].loc, starMapScale, starMapShift))
      ensures redraws == old(redraws) + 1
    {
      starMapScale := starMapScale + ZoomStep;
      Draw(starMap);
    }

    /** Zooms out one step and repaints, unless the scale is already at the minimum,
        in which case nothing happens. */
    method ZoomOut(starMap: StarMap)
      modifies this`starMapScale, this`redraws, starMap.stars`screen
      ensures starMapScale == ZoomedOut(old(starMapScale)) && starMapShift == old(starMapShift)
      ensures hoveredStar == old(hoveredStar)
      ensures old(starMapScale) > MinScale ==>
        && redraws == old(redraws) + 1
        && forall i :: 0 <= i < |starMap.stars| ==>
          starMap.stars[i].screen == Some(ScreenLoc(starMap.stars[i].loc, starMapScale, starMapShift))
      ensures old(starMapScale) <= MinScale ==>
        redraws == old(redraws) && forall i :: 0 <= i < |starMap.stars| ==> unchanged(starMap.stars[i])
    {
      if starMapScale > MinScale {
        starMapScale := starMapScale - ZoomStep;
        Draw(starMap);
      }
    }

    /** Updates the hovered star for the pointer at `point` (the stars must all have been
        drawn) and repaints exactly when the hovered star changes. */
    method OnMouseMove(point: Point, starMap: StarMap)
      requires Drawn(starMap.stars)
      modifies this`hoveredStar, this`redraws, starMap.stars`screen
      ensures var h := Hovered(point, old(Screens(starMap.stars)));
        hoveredStar == if h.Some? then starMap.stars[h.value] else null
      ensures hoveredStar != old(hoveredStar) ==>
        && redraws == old(redraws) + 1
        && forall i :: 0 <= i < |starMap.stars| ==>
          starMap.stars[i].screen == Some(ScreenLoc(starMap.stars[i].loc, starMapScale, starMapShift))
      ensures hoveredStar == old(hoveredStar) ==>
        redraws == old(redraws) && forall i :: 0 <= i < |starMap.stars| ==> unchanged(starMap.stars[i])
    {
      var hovered := FindHovered(point, starMap.stars);
      var changed := hovered != hoveredStar;
      hoveredStar := hovered;
      if changed {
        Draw(starMap);
      }
    }
  }

  /** The scan for the star under the pointer at `point`: the star `Hovered` picks from
      the screen positions, or `null` when no star is in reach. */
  method FindHovered(point: Point, stars: seq<Star>) returns (hovered: Star?)
    requires Drawn(stars)
    ensures var h := Hovered(point, Screens(stars));
      hovered == if h.Some? then stars[h.value] else null
  {
    ghost var screens := Screens(stars);
    hovered := null;
    ghost var index: Option<nat> := None;
    var dist: real := 0.0;
    var i := 0;
    while i < |stars|
      invariant 0 <= i <= |stars|
      invariant index == Hovered(point, screens[..i])
      invariant hovered == if index.Some? then stars[index.value] else null
      invariant index.Some? ==> dist == SquareDist(point, screens[index.value])
    {
      assert screens[..i + 1][..i] == screens[..i];
      var d := SquareDist(point, stars[i].screen.value);
      if d < HoverRadius * HoverRadius {
        if hovered == null || d < dist {
          hovered := stars[i];
          dist := d;
          index := Some(i);
        }
      }
      i := i + 1;
    }
    assert screens[..|stars|] == screens;
  }
}
