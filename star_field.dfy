/** The star-field generator's placement rule, as functions over the stream
    of candidate points: each star slot draws candidates until one keeps its
    distance from every star already placed, and gives up after a fixed number
    of retries. `pick(k)` is the k-th candidate the generator would draw (the
    polar sampling with its trigonometry is folded into the stream). */
module StarField {
  import opened Geometry

  /** Candidates closer than this to a placed star (or exactly this close) are rejected. */
  const MinDist: real := 0.012
  /** Retries allowed per slot after its first candidate. */
  const MaxRetries: nat := 5
  /** Stars placed by one run of the generator. */
  const StarCount: nat := 100

  /** No star already placed collides with `p`, checked in placement order. */
  predicate Clear(placed: seq<Point>, p: Point) {
    |placed| == 0 || (Clear(placed[..|placed| - 1], p) && !Collides(placed[|placed| - 1], p, MinDist))
  }

  /** `Clear` holds exactly when `p` collides with none of the placed stars. */
  lemma {:induction false} ClearIff(placed: seq<Point>, p: Point)
    ensures Clear(placed, p) <==> forall i :: 0 <= i < |placed| ==> !Collides(placed[i], p, MinDist)
  {
    if |placed| > 0 {
      var front := placed[..|placed| - 1];
      ClearIff(front, p);
      assert forall i :: 0 <= i < |front| ==> front[i] == placed[i];
    }
  }

  /** Every pair of points is more than `MinDist` apart. */
  predicate Separated(pts: seq<Point>) {
    forall i, j :: 0 <= i < j < |pts| ==> SquareDist(pts[i], pts[j]) > MinDist * MinDist
  }

  datatype Attempt = Accepted(p: Point, next: nat) | Exhausted(next: nat)

  /** Filling one slot, starting at candidate `k` after `retries` rejections so far:
      the first acceptable candidate is taken; one rejection too many exhausts the slot. */
  function TrySlot(placed: seq<Point>, pick: nat -> Point, k: nat, retries: nat): (a: Attempt)
    requires retries <= MaxRetries
    decreases MaxRetries - retries
    ensures a.Accepted? ==> k < a.next <= k + MaxRetries - retries + 1 && Clear(placed, a.p)
    ensures a.Exhausted? ==> a.next == k + MaxRetries - retries + 1
  {
    if Clear(placed, pick(k)) then
      Accepted(pick(k), k + 1)
    else if retries + 1 > MaxRetries then
      Exhausted(k + 1)
    else
      TrySlot(placed, pick, k + 1, retries + 1)
  }

  /** The candidate taken is the first clear one, and a slot is exhausted exactly
      when all of its candidates (the first draw and every retry) are rejected. */
  lemma {:induction false} TrySlotFirstClear(placed: seq<Point>, pick: nat -> Point, k: nat, retries: nat)
    requires retries <= MaxRetries
    decreases MaxRetries - retries
    ensures var a := TrySlot(placed, pick, k, retries);
      a.Accepted? ==> a.p == pick(a.next - 1) && forall j :: k <= j < a.next - 1 ==> !Clear(placed, pick(j))
    ensures TrySlot(placed, pick, k, retries).Exhausted? <==>
      forall j :: k <= j <= k + MaxRetries - retries ==> !Clear(placed, pick(j))
  {
    if !Clear(placed, pick(k)) && retries + 1 <= MaxRetries {
      TrySlotFirstClear(placed, pick, k + 1, retries + 1);
    }
  }

  /** The outcome of placing stars: all points (earlier ones first), the next unused
      candidate, and whether every slot was filled. */
  datatype Placement = Placement(points: seq<Point>, next: nat, ok: bool)

  /** Filling `n` slots one after another, starting at candidate `k`; placement stops at
      the first exhausted slot. */
  function PlaceStars(placed: seq<Point>, pick: nat -> Point, k: nat, n: nat): (r: Placement)
    decreases n
    ensures |placed| <= |r.points| <= |placed| + n && r.points[..|placed|] == placed
    ensures r.ok <==> |r.points| == |placed| + n
    ensures r.next >= k
  {
    if n == 0 then
      Placement(placed, k, true)
    else
      match TrySlot(placed, pick, k, 0)
      case Exhausted(next) => Placement(placed, next, false)
      case Accepted(p, next) =>
        var r := PlaceStars(placed + [p], pick, next, n - 1);
        PrefixOfPrefix(r.points, placed + [p], |placed|);
        r
  }

  lemma PrefixOfPrefix<T>(s: seq<T>, t: seq<T>, n: nat)
    requires n <= |t| <= |s| && s[..|t|] == t
    ensures s[..n] == t[..n]
  {
    assert s[..n] == s[..|t|][..n];
  }

  /** From position `from` on, every point is clear of all the points before it. */
  predicate ClearPrefixes(pts: seq<Point>, from: nat) {
    forall i :: from <= i < |pts| ==> Clear(pts[..i], pts[i])
  }

  lemma ClearPrefixesStep(pts: seq<Point>, from: nat)
    requires from < |pts| && Clear(pts[..from], pts[from]) && ClearPrefixes(pts, from + 1)
    ensures ClearPrefixes(pts, from)
  {
  }

  /** Every star placed is clear of all the stars placed before it. */
  lemma {:induction false} PlacementClear(placed: seq<Point>, pick: nat -> Point, k: nat, n: nat)
    ensures ClearPrefixes(PlaceStars(placed, pick, k, n).points, |placed|)
    decreases n
  {
    var r := PlaceStars(placed, pick, k, n);
    if n == 0 {
      assert r.points == placed;
    } else {
      var a := TrySlot(placed, pick, k, 0);
      if a.Exhausted? {
        assert r.points == placed;
      } else {
        var r' := PlaceStars(placed + [a.p], pick, a.next, n - 1);
        assert r == r';
        PlacementClear(placed + [a.p], pick, a.next, n - 1);
        PrefixOfPrefix(r.points, placed + [a.p], |placed|);
        assert r.points[..|placed| + 1] == placed + [a.p];
        assert r.points[|placed|] == a.p;
        ClearPrefixesStep(r.points, |placed|);
      }
    }
  }

  /** A point clear of every point of a separated set keeps it separated when added. */
  lemma SeparatedSnoc(pts: seq<Point>, p: Point)
    requires Separated(pts) && Clear(pts, p)
    ensures Separated(pts + [p])
  {
    var s := pts + [p];
    forall i, j | 0 <= i < j < |s|
      ensures SquareDist(s[i], s[j]) > MinDist * MinDist
    {
      if j == |pts| {
        assert s[i] == pts[i] && s[j] == p;
        ClearIff(pts, p);
        assert !Collides(pts[i], p, MinDist);
      } else {
        assert s[i] == pts[i] && s[j] == pts[j];
      }
    }
  }

  /** A sequence whose every point is clear of the points before it is separated. */
  lemma {:induction false} ClearPrefixesSeparated(pts: seq<Point>, from: nat)
    requires from <= |pts| && Separated(pts[..from])
    requires ClearPrefixes(pts, from)
    ensures Separated(pts)
    decreases |pts| - from
  {
    if from < |pts| {
      SeparatedSnoc(pts[..from], pts[from]);
      assert pts[..from] + [pts[from]] == pts[..from + 1];
      ClearPrefixesSeparated(pts, from + 1);
    } else {
      assert pts[..from] == pts;
    }
  }

  /** Placement preserves separation: starting from separated stars, every pair of
      stars placed (old and new) is more than `MinDist` apart. */
  lemma PlacementSeparated(placed: seq<Point>, pick: nat -> Point, k: nat, n: nat)
    requires Separated(placed)
    ensures Separated(PlaceStars(placed, pick, k, n).points)
  {
    var r := PlaceStars(placed, pick, k, n);
    PlacementClear(placed, pick, k, n);
    ClearPrefixesSeparated(r.points, |placed|);
  }

  /** Separation holds for pairs in either order. */
  lemma SeparatedAnyOrder(pts: seq<Point>, i: nat, j: nat)
    requires Separated(pts) && i < |pts| && j < |pts| && i != j
    ensures SquareDist(pts[i], pts[j]) > MinDist * MinDist
  {
    if j < i {
      SquareDistSymmetric(pts[j], pts[i]);
    }
  }

  /** One run of the generator on an empty map either places exactly `StarCount`
      pairwise-separated stars, or stops because some slot used up its retries. */
  lemma {:induction false} GenerationOutcome(pick: nat -> Point, k: nat)
    ensures var r := PlaceStars([], pick, k, StarCount);
      && (r.ok ==> |r.points| == StarCount)
      && (!r.ok ==> |r.points| < StarCount)
      && Separated(r.points)
  {
    PlacementSeparated([], pick, k, StarCount);
  }
}
