/** The game state: stars with the groups docked at them, factions owning groups,
    the star map that generates the stars, and the model that hands out ids.

    The random-number generator is an object holding two injected infinite
    streams, one of candidate star positions and one of raw integer rolls, with
    a cursor into each; every draw advances its cursor, so the stream functions
    of the star-field and star-name modules describe exactly what is drawn. */
module World {
  import opened Wrappers
  import opened Geometry
  import opened StarNames
  import opened StarField

  /** The random-number generator, with the draws it will make fixed in advance. */
  class Random {
    /** `candidate(k)`: the k-th star position the polar sampler draws. */
    const candidate: nat -> Point
    /** `roll(k)`: the raw number behind the k-th `randint` call. */
    const roll: nat -> nat
    var pointsDrawn: nat
    var rollsDrawn: nat

    constructor(candidate: nat -> Point, roll: nat -> nat)
      ensures this.candidate == candidate && this.roll == roll
      ensures pointsDrawn == 0 && rollsDrawn == 0
    {
      this.candidate := candidate;
      this.roll := roll;
      pointsDrawn := 0;
      rollsDrawn := 0;
    }

    /** The next candidate star position. */
    method PickPoint() returns (p: Point)
      modifies this`pointsDrawn
      ensures p == candidate(old(pointsDrawn)) && pointsDrawn == old(pointsDrawn) + 1
    {
      p := candidate(pointsDrawn);
      pointsDrawn := pointsDrawn + 1;
    }
  }

  /** Where a group is: nowhere yet, docked at a star, or free in space. */
  datatype Loc = Nowhere | Docked(star: Star) | Free(point: Point)

  /** The stars a location can name, as a frame. */
  function StarsOf(l: Loc): set<Star> {
    if l.Docked? then {l.star} else {}
  }

  /** `s` without the first occurrence of `x` (all of `s` when `x` does not occur). */
  function RemoveFirst<T(==)>(s: seq<T>, x: T): (r: seq<T>)
    ensures x in s ==> |r| == |s| - 1 && multiset(r) == multiset(s) - multiset{x}
    ensures x !in s ==> r == s
  {
    if |s| == 0 then []
    else if s[0] == x then
      assert s == [s[0]] + s[1..];
      s[1..]
    else
      assert s == [s[0]] + s[1..];
      [s[0]] + RemoveFirst(s[1..], x)
  }

  /** The element removed is the one at the first index holding `x`. */
  lemma {:induction false} RemoveFirstAt<T>(s: seq<T>, x: T, i: nat)
    requires i < |s| && s[i] == x && x !in s[..i]
    ensures RemoveFirst(s, x) == s[..i] + s[i + 1..]
  {
    if i > 0 {
      assert s[0] in s[..i];
      assert s[1..][..i - 1] == s[1..i];
      RemoveFirstAt(s[1..], x, i - 1);
      assert s[1..][i..] == s[i + 1..];
      assert s[..i] == [s[0]] + s[1..i];
    }
  }

  /** Docking and then undocking a group not docked before restores the list. */
  lemma DockThenUndock<T>(s: seq<T>, x: T)
    requires x !in s
    ensures RemoveFirst(s + [x], x) == s
  {
    assert (s + [x])[..|s|] == s;
    RemoveFirstAt(s + [x], x, |s|);
    assert (s + [x])[|s| + 1..] == [];
  }

  class Star {
    const id: nat
    /** Position on the unit star map. */
    const loc: Point
    var name: Option<string>
    /** The groups docked here, in docking order. */
    var docked: seq<Group>
    /** Position on the screen; absent until the star has first been drawn. */
    var screen: Option<Point>

    constructor(id: nat, p: Point)
      ensures this.id == id && loc == p
      ensures name == None && docked == [] && screen == None
    {
      this.id := id;
      loc := p;
      name := None;
      docked := [];
      screen := None;
    }

    method Dock(group: Group)
      modifies this`docked
      ensures docked == old(docked) + [group]
    {
      docked := docked + [group];
    }

    /** Removes the first docking of `group`; a group not docked here is the
        list-removal error (`ok` false) and changes nothing. */
    method Undock(group: Group) returns (ok: bool)
      modifies this`docked
      ensures ok <==> group in old(docked)
      ensures docked == RemoveFirst(old(docked), group)
    {
      ok := group in docked;
      docked := RemoveFirst(docked, group);
    }

    method SetScreen(p: Point)
      modifies this`screen
      ensures screen == Some(p)
    {
      screen := Some(p);
    }
  }

  class Faction {
    const id: nat
    const name: string
    var groups: seq<Group>

    constructor(id: nat, name: string)
      ensures this.id == id && this.name == name && groups == []
    {
      this.id := id;
      this.name := name;
      groups := [];
    }
  }

  class Group {
    const id: nat
    const faction: Faction
    var loc: Loc

    constructor(id: nat, faction: Faction)
      ensures this.id == id && this.faction == faction && loc == Nowhere
    {
      this.id := id;
      this.faction := faction;
      loc := Nowhere;
    }

    predicate IsDocked()
      reads this
    {
      loc.Docked?
    }

    /** A docked group is on its star's docked list. */
    predicate RegisteredAtDock()
      reads this, StarsOf(loc)
    {
      loc.Docked? ==> this in loc.star.docked
    }

    /** Moves the group. Moving into free space first undocks it from the star it
        was docked at; docking registers it at the new star (and, as written, leaves
        it on the list of a star it was docked at before). A location that is neither
        a point nor a star is the attribute error: `ok` false and nothing changes,
        and so is an undocking from a star that does not list the group. */
    method SetLocation(location: Loc) returns (ok: bool)
      modifies this`loc, StarsOf(loc)`docked, StarsOf(location)`docked
      ensures location.Nowhere? ==> !ok
      ensures location.Docked? ==> ok
      ensures location.Free? && old(loc).Docked? ==> (ok <==> this in old(loc.star.docked))
      ensures location.Free? && !old(loc).Docked? ==> ok
      ensures ok ==> loc == location && (IsDocked() <==> location.Docked?) && RegisteredAtDock()
      ensures !ok ==> loc == old(loc)
      // the stars' docked lists
      ensures location.Docked? ==> location.star.docked == old(location.star.docked) + [this]
      ensures location.Docked? && old(loc).Docked? && old(loc).star != location.star ==>
        old(loc).star.docked == old(loc.star.docked)
      ensures location.Free? && old(loc).Docked? ==>
        old(loc).star.docked == RemoveFirst(old(loc.star.docked), this)
      ensures location.Nowhere? && old(loc).Docked? ==> old(loc).star.docked == old(loc.star.docked)
      ensures old(RegisteredAtDock()) && !location.Nowhere? ==> ok
    {
      match location
      case Free(p) =>
        ok := true;
        if loc.Docked? {
          ok := loc.star.Undock(this);
        }
        if ok {
          loc := location;
        }
      case Docked(star) =>
        star.Dock(this);
        loc := location;
        ok := true;
      case Nowhere =>
        ok := false;
    }
  }

  /** The positions of a list of stars. */
  function Locs(stars: seq<Star>): seq<Point> {
    seq(|stars|, i requires 0 <= i < |stars| => stars[i].loc)
  }

  lemma LocsSnoc(stars: seq<Star>, s: Star)
    ensures Locs(stars + [s]) == Locs(stars) + [s.loc]
  {
  }

  /** A star as the generator leaves it: the given id, the name for position `index`
      of the name sequence drawn from the curated `names`, nothing docked and no screen
      position yet. */
  predicate NewStar(star: Star, id: nat, names: seq<string>, index: nat)
    reads star
  {
    star.id == id && NameFits(names, index, star.name) && star.docked == [] && star.screen == None
  }

  class StarMap {
    var stars: seq<Star>
    /** The curated names, handed out before any random one. */
    const starNames: seq<string>
    /** How many curated names have been handed out. */
    var nameIndex: nat

    constructor()
      ensures stars == [] && starNames == Curated && nameIndex == 0
    {
      stars := [];
      starNames := Curated;
      nameIndex := 0;
    }

    /** Whether `p` keeps its distance from every star on the map. */
    method PointOk(p: Point) returns (ok: bool)
      ensures ok == Clear(Locs(stars), p)
    {
      ghost var locs := Locs(stars);
      assert |locs| == |stars| && forall j :: 0 <= j < |stars| ==> locs[j] == stars[j].loc;
      var i := 0;
      while i < |stars|
        invariant 0 <= i <= |stars|
        invariant forall j :: 0 <= j < i ==> !Collides(stars[j].loc, p, MinDist)
      {
        if Collides(stars[i].loc, p, MinDist) {
          ClearIff(Locs(stars), p);
          return false;
        }
        i := i + 1;
      }
      ClearIff(Locs(stars), p);
      return true;
    }

    /** Draws candidates for one star until one is clear, giving up after the
        allowed number of retries. */
    method FillSlot(rng: Random) returns (a: Attempt)
      modifies rng`pointsDrawn
      ensures a == TrySlot(Locs(stars), rng.candidate, old(rng.pointsDrawn), 0)
      ensures rng.pointsDrawn == a.next
    {
      ghost var k0 := rng.pointsDrawn;
      var p := rng.PickPoint();
      var retries := 0;
      var clear := PointOk(p);
      while !clear
        invariant retries <= MaxRetries
        invariant rng.pointsDrawn >= 1 && p == rng.candidate(rng.pointsDrawn - 1)
        invariant clear == Clear(Locs(stars), p)
        invariant TrySlot(Locs(stars), rng.candidate, k0, 0)
               == TrySlot(Locs(stars), rng.candidate, rng.pointsDrawn - 1, retries)
        decreases MaxRetries - retries
      {
        retries := retries + 1;
        if retries > MaxRetries {
          return Exhausted(rng.pointsDrawn);
        }
        p := rng.PickPoint();
        clear := PointOk(p);
      }
      return Accepted(p, rng.pointsDrawn);
    }

    /** A random name, drawn from the roll stream. */
    method RandomName(rng: Random) returns (name: string)
      modifies rng`rollsDrawn
      ensures var d := StarNames.RandomName(rng.roll, old(rng.rollsDrawn));
        name == d.text && rng.rollsDrawn == d.next
      ensures IsRandomName(name)
    {
      var d := StarNames.RandomName(rng.roll, rng.rollsDrawn);
      name := d.text;
      rng.rollsDrawn := d.next;
    }

    /** The next curated name while any is left, then random names. */
    method GenStarName(rng: Random) returns (name: string)
      modifies this`nameIndex, rng`rollsDrawn
      ensures var n := NextName(NameState(old(nameIndex), old(rng.rollsDrawn)), starNames, RandomNames(rng.roll));
        name == n.name && nameIndex == n.state.index && rng.rollsDrawn == n.state.cursor
      ensures old(nameIndex) <= |starNames| ==> nameIndex <= |starNames|
    {
      if nameIndex < |starNames| {
        nameIndex := nameIndex + 1;
        name := starNames[nameIndex - 1];
      } else {
        name := RandomName(rng);
      }
    }

    /** Appends a star at `p` with the next id and the next star name. */
    method AddStar(p: Point, ids: Model, rng: Random) returns (star: Star)
      modifies this`stars, this`nameIndex, ids`lastId, rng`rollsDrawn
      ensures fresh(star) && stars == old(stars) + [star]
      ensures star.id == old(ids.lastId) + 1 && ids.lastId == star.id && star.loc == p
      ensures NameFits(starNames, old(nameIndex), star.name)
      ensures nameIndex == NameIndexAfter(|starNames|, old(nameIndex), 1)
      ensures rng.rollsDrawn >= old(rng.rollsDrawn)
      ensures var n := NextName(NameState(old(nameIndex), old(rng.rollsDrawn)), starNames, RandomNames(rng.roll));
        star.name == Some(n.name) && nameIndex == n.state.index && rng.rollsDrawn == n.state.cursor
      ensures star.docked == [] && star.screen == None
    {
      var id := ids.GetId();
      star := new Star(id, p);
      NextNameFits(NameState(nameIndex, rng.rollsDrawn), starNames, rng.roll);
      var name := GenStarName(rng);
      star.name := Some(name);
      stars := stars + [star];
    }

    /** The generator's progress after `slot` of its slots: the stars placed so
        far follow the ones it started with (`before`), in placement order, ids count
        on from `lastId0`, names follow the name counter from `index0`, and `whole`
        is what placing all slots from the starting state yields. */
    predicate Generating(ids: Model, rng: Random, before: seq<Star>, lastId0: nat, index0: nat,
                         whole: Placement, slot: nat)
      reads this, ids, rng, stars
    {
      && slot <= StarCount
      && |stars| == |before| + slot && stars[..|before|] == before
      && whole == PlaceStars(Locs(stars), rng.candidate, rng.pointsDrawn, StarCount - slot)
      && ids.lastId == lastId0 + slot
      && nameIndex == NameIndexAfter(|starNames|, index0, slot)
      && forall i :: |before| <= i < |stars| ==>
           NewStar(stars[i], lastId0 + 1 + (i - |before|), starNames, index0 + (i - |before|))
    }

    /** One of the generator's star slots: a clear position, then a star there. */
    method PlaceStar(ids: Model, rng: Random, ghost before: seq<Star>, ghost lastId0: nat,
                     ghost index0: nat, ghost whole: Placement, ghost slot: nat) returns (ok: bool)
      requires slot < StarCount && Generating(ids, rng, before, lastId0, index0, whole, slot)
      modifies this`stars, this`nameIndex, ids`lastId, rng`pointsDrawn, rng`rollsDrawn
      ensures ok ==> Generating(ids, rng, before, lastId0, index0, whole, slot + 1)
      ensures ok ==> |stars| == |old(stars)| + 1 && stars[..|old(stars)|] == old(stars)
      ensures ok ==> fresh(stars[|old(stars)|])
      ensures !ok ==> whole == Placement(Locs(stars), rng.pointsDrawn, false)
      ensures !ok ==>
        && stars == old(stars) && ids.lastId == old(ids.lastId)
        && nameIndex == old(nameIndex) && rng.rollsDrawn == old(rng.rollsDrawn)
      ensures rng.rollsDrawn >= old(rng.rollsDrawn)
    {
      var a := FillSlot(rng);
      if a.Exhausted? {
        return false;
      }
      var star := AddStar(a.p, ids, rng);
      LocsSnoc(old(stars), star);
      NameIndexStep(starNames, index0, slot, star.name);
      assert stars[..|old(stars)|] == old(stars);
      assert stars[..|before|] == old(stars)[..|before|];
      forall i | |before| <= i < |stars|
        ensures NewStar(stars[i], lastId0 + 1 + (i - |before|), starNames, index0 + (i - |before|))
      {
        if i < |old(stars)| {
          assert stars[i] == old(stars)[i];
        } else {
          assert i - |before| == slot && stars[i] == star;
        }
      }
      return true;
    }

    /** Places `StarCount` new stars, each with a fresh id from `ids` and the next
        star name; `ok` is false when some star used up its retries, in which case
        the stars placed so far stay on the map. */
    method GenRandPolar(ids: Model, rng: Random) returns (ok: bool)
      modifies this`stars, this`nameIndex, ids`lastId, rng`pointsDrawn, rng`rollsDrawn
      ensures var r := PlaceStars(Locs(old(stars)), rng.candidate, old(rng.pointsDrawn), StarCount);
        ok == r.ok && Locs(stars) == r.points && rng.pointsDrawn == r.next
      ensures |old(stars)| <= |stars| && stars[..|old(stars)|] == old(stars)
      ensures ids.lastId == old(ids.lastId) + (|stars| - |old(stars)|)
      ensures nameIndex == NameIndexAfter(|starNames|, old(nameIndex), |stars| - |old(stars)|)
      ensures rng.rollsDrawn >= old(rng.rollsDrawn)
      ensures forall i :: |old(stars)| <= i < |stars| ==>
        && fresh(stars[i])
        && NewStar(stars[i], old(ids.lastId) + 1 + (i - |old(stars)|), starNames, old(nameIndex) + (i - |old(stars)|))
    {
      ghost var whole := PlaceStars(Locs(stars), rng.candidate, rng.pointsDrawn, StarCount);
      var slot := 0;
      while slot < StarCount
        invariant Generating(ids, rng, old(stars), old(ids.lastId), old(nameIndex), whole, slot)
        invariant forall i :: |old(stars)| <= i < |stars| ==> fresh(stars[i])
        invariant rng.rollsDrawn >= old(rng.rollsDrawn)
      {
        ghost var prev := stars;
        var placedOne := PlaceStar(ids, rng, old(stars), old(ids.lastId), old(nameIndex), whole, slot);
        if !placedOne {
          return false;
        }
        forall i | |old(stars)| <= i < |stars|
          ensures fresh(stars[i])
        {
          if i < |prev| {
            assert stars[i] == stars[..|prev|][i] == prev[i];
          } else {
            assert i == |prev|;
          }
        }
        slot := slot + 1;
      }
      return true;
    }
  }

  /** The curated-name counter after `n` more names, for a curated list of `size`
      names: it counts up to `size` and then stays. */
  function NameIndexAfter(size: nat, index: nat, n: nat): nat {
    if index >= size then index else Min(index + n, size)
  }

  /** `name` is what the name generator hands out as its name number `index`
      (counted from the first name ever): the curated name while there is one,
      a random name after that. */
  predicate NameFits(names: seq<string>, index: nat, name: Option<string>) {
    if index < |names| then name == Some(names[index])
    else name.Some? && IsRandomName(name.value)
  }

  /** The next name fits the position the counter stands at, and moves the counter
      one step on (it stays put once the curated names are used up). */
  lemma NextNameFits(st: NameState, names: seq<string>, roll: nat -> nat)
    ensures NameFits(names, st.index, Some(NextName(st, names, RandomNames(roll)).name))
    ensures NextName(st, names, RandomNames(roll)).state.index == NameIndexAfter(|names|, st.index, 1)
    ensures NextName(st, names, RandomNames(roll)).state.cursor >= st.cursor
  {
  }

  /** One more name moves the counter one step, and a name that fits the counter as it
      stands after `n` names fits position `index + n`. */
  lemma NameIndexStep(names: seq<string>, index: nat, n: nat, name: Option<string>)
    requires NameFits(names, NameIndexAfter(|names|, index, n), name)
    ensures NameFits(names, index + n, name)
    ensures NameIndexAfter(|names|, index, n + 1)
         == NameIndexAfter(|names|, NameIndexAfter(|names|, index, n), 1)
  {
  }

  /** A run of the name generator hands out the names `NameFits` describes, one per
      position, and leaves the counter where `NameIndexAfter` says. */
  lemma GeneratedNamesFit(st: NameState, names: seq<string>, roll: nat -> nat, n: nat)
    requires st.index <= |names|
    ensures var run := GenNames(st, names, RandomNames(roll), n);
      && run.end.index == NameIndexAfter(|names|, st.index, n)
      && forall i :: 0 <= i < n ==> NameFits(names, st.index + i, Some(run.names[i]))
  {
    RandomNamesPronounceable(roll);
    NamesCurated(st, names, RandomNames(roll), n);
    NamesRandom(st, names, RandomNames(roll), n);
  }

  /** An object the model can find by id. */
  datatype Obj = StarObj(star: Star) | FactionObj(faction: Faction) | GroupObj(group: Group)

  /** The index of the first element whose `key` is `id`. */
  function FirstWith<T>(s: seq<T>, key: T -> nat, id: nat): (r: Option<nat>)
    ensures r.Some? ==> r.value < |s| && key(s[r.value]) == id
    ensures r.Some? ==> forall j :: 0 <= j < r.value ==> key(s[j]) != id
    ensures r.None? <==> forall j :: 0 <= j < |s| ==> key(s[j]) != id
  {
    if |s| == 0 then None
    else if key(s[0]) == id then Some(0)
    else
      match FirstWith(s[1..], key, id)
      case None => None
      case Some(i) => Some(i + 1)
  }

  function StarId(s: Star): nat { s.id }

  function GroupId(g: Group): nat { g.id }

  /** Neither the faction nor any of its groups has the id. */
  predicate Misses(f: Faction, id: nat)
    reads f
  {
    f.id != id && forall j :: 0 <= j < |f.groups| ==> f.groups[j].id != id
  }

  /** `o` is what the search finds at faction `i`: no earlier faction nor any of its
      groups has the id, and `o` is the faction itself when it has the id, otherwise
      its first group with the id. */
  predicate FoundIn(factions: seq<Faction>, i: nat, id: nat, o: Obj)
    requires i < |factions|
    reads factions
  {
    && (forall k :: 0 <= k < i ==> Misses(factions[k], id))
    && if factions[i].id == id then o == FactionObj(factions[i])
       else exists j :: 0 <= j < |factions[i].groups| && FirstGroupAt(factions[i].groups, j, id)
                        && o == GroupObj(factions[i].groups[j])
  }

  /** `j` is the index of the first group with the id. */
  predicate FirstGroupAt(groups: seq<Group>, j: nat, id: nat) {
    j < |groups| && groups[j].id == id && forall m :: 0 <= m < j ==> groups[m].id != id
  }

  /** A match behind a first faction that misses is a match of the whole list. */
  lemma FoundInShift(factions: seq<Faction>, id: nat, o: Obj)
    requires |factions| > 0 && Misses(factions[0], id)
    requires exists i :: 0 <= i < |factions[1..]| && FoundIn(factions[1..], i, id, o)
    ensures exists i :: 0 <= i < |factions| && FoundIn(factions, i, id, o)
  {
    var i :| 0 <= i < |factions[1..]| && FoundIn(factions[1..], i, id, o);
    assert factions[1..][i] == factions[i + 1];
    forall k | 0 <= k < i + 1
      ensures Misses(factions[k], id)
    {
      if k > 0 {
        assert factions[k] == factions[1..][k - 1];
      }
    }
    assert FoundIn(factions, i + 1, id, o);
  }

  /** Searching the factions in order, each faction before its own groups: the first
      faction that has the id itself or in one of its groups decides the result. */
  function FindInFactions(factions: seq<Faction>, id: nat): (r: Option<Obj>)
    reads factions
    ensures r.Some? && r.value.FactionObj? ==> r.value.faction in factions && r.value.faction.id == id
    ensures r.Some? && r.value.GroupObj? ==>
      r.value.group.id == id && exists f :: f in factions && r.value.group in f.groups
    ensures r.Some? ==> !r.value.StarObj?
    ensures r.None? <==> forall i :: 0 <= i < |factions| ==> Misses(factions[i], id)
  {
    if |factions| == 0 then None
    else
      var f := factions[0];
      if f.id == id then Some(FactionObj(f))
      else
        match FirstWith(f.groups, GroupId, id)
        case Some(j) => Some(GroupObj(f.groups[j]))
        case None =>
          var r := FindInFactions(factions[1..], id);
          assert forall i :: 1 <= i < |factions| ==> factions[i] == factions[1..][i - 1];
          r
  }

  /** Which match wins: the result is what the search finds at the first faction that
      has the id itself or in one of its groups, the faction before its groups. */
  lemma {:induction false} FindInFactionsOrder(factions: seq<Faction>, id: nat)
    ensures var r := FindInFactions(factions, id);
      r.Some? ==> exists i :: 0 <= i < |factions| && FoundIn(factions, i, id, r.value)
  {
    if |factions| > 0 {
      var f := factions[0];
      if f.id == id {
        assert FoundIn(factions, 0, id, FactionObj(f));
      } else {
        match FirstWith(f.groups, GroupId, id)
        case Some(j) =>
          assert FirstGroupAt(f.groups, j, id);
          assert FoundIn(factions, 0, id, GroupObj(f.groups[j]));
        case None =>
          FindInFactionsOrder(factions[1..], id);
          var r := FindInFactions(factions[1..], id);
          if r.Some? {
            FoundInShift(factions, id, r.value);
          }
      }
    }
  }

  class Model {
    var lastId: nat
    const starMap: StarMap
    var factions: seq<Faction>
    var currentFaction: Faction?

    constructor()
      ensures lastId == 0 && fresh(starMap)
      ensures starMap.stars == [] && starMap.starNames == Curated && starMap.nameIndex == 0
      ensures factions == [] && currentFaction == null
    {
      lastId := 0;
      starMap := new StarMap();
      factions := [];
      currentFaction := null;
    }

    /** A fresh id: one more than the last one handed out. */
    method GetId() returns (id: nat)
      modifies this`lastId
      ensures id == old(lastId) + 1 && lastId == id
    {
      lastId := lastId + 1;
      id := lastId;
    }

    /** The object with the given id: stars first, then each faction followed by its groups. */
    function Lookup(id: nat): (r: Option<Obj>)
      reads this, starMap, factions
      ensures r.Some? && r.value.StarObj? ==> r.value.star in starMap.stars && r.value.star.id == id
      ensures (exists i :: 0 <= i < |starMap.stars| && starMap.stars[i].id == id) ==>
        r.Some? && r.value.StarObj?
      ensures r.Some? && r.value.FactionObj? ==> r.value.faction in factions && r.value.faction.id == id
      ensures r.Some? && r.value.GroupObj? ==>
        r.value.group.id == id && exists f :: f in factions && r.value.group in f.groups
      ensures r.Some? && r.value.StarObj? ==>
        exists i :: 0 <= i < |starMap.stars| && starMap.stars[i] == r.value.star &&
          forall j :: 0 <= j < i ==> starMap.stars[j].id != id
      ensures (forall i :: 0 <= i < |starMap.stars| ==> starMap.stars[i].id != id) ==>
        r == FindInFactions(factions, id)
      ensures r.None? <==>
        && (forall i :: 0 <= i < |starMap.stars| ==> starMap.stars[i].id != id)
        && (forall i :: 0 <= i < |factions| ==> Misses(factions[i], id))
    {
      match FirstWith(starMap.stars, StarId, id)
      case Some(i) => Some(StarObj(starMap.stars[i]))
      case None => FindInFactions(factions, id)
    }

    method GetObjectById(id: nat) returns (r: Option<Obj>)
      ensures r == Lookup(id)
    {
      var stars := starMap.stars;
      var i := 0;
      while i < |stars|
        invariant 0 <= i <= |stars|
        invariant forall j :: 0 <= j < i ==> stars[j].id != id
      {
        if stars[i].id == id {
          return Some(StarObj(stars[i]));
        }
        i := i + 1;
      }
      var n := 0;
      while n < |factions|
        invariant 0 <= n <= |factions|
        invariant FindInFactions(factions, id) == FindInFactions(factions[n..], id)
      {
        var f := factions[n];
        if f.id == id {
          return Some(FactionObj(f));
        }
        var j := 0;
        while j < |f.groups|
          invariant 0 <= j <= |f.groups|
          invariant forall m :: 0 <= m < j ==> f.groups[m].id != id
        {
          if f.groups[j].id == id {
            return Some(GroupObj(f.groups[j]));
          }
          j := j + 1;
        }
        assert factions[n..][1..] == factions[n + 1..];
        n := n + 1;
      }
      return None;
    }

    /** Two factions, "us" and "them", with a single group of "us" docked at the first star. */
    method InitFactions()
      requires |starMap.stars| > 0
      modifies this`lastId, this`factions, {starMap.stars[0]}`docked
      ensures lastId == old(lastId) + 3
      ensures |factions| == |old(factions)| + 2 && factions[..|old(factions)|] == old(factions)
      ensures var us, them := factions[|old(factions)|], factions[|old(factions)| + 1];
        && fresh(us) && us.id == old(lastId) + 1 && us.name == "us"
        && fresh(them) && them.id == old(lastId) + 3 && them.name == "them" && them.groups == []
        && |us.groups| == 1 && fresh(us.groups[0])
        && us.groups[0].id == old(lastId) + 2 && us.groups[0].faction == us
        && us.groups[0].loc == Docked(starMap.stars[0])
        && starMap.stars[0].docked == old(starMap.stars[0].docked) + [us.groups[0]]
    {
      var fid := GetId();
      var f := new Faction(fid, "us");
      factions := factions + [f];
      var gid := GetId();
      var g := new Group(gid, f);
      f.groups := f.groups + [g];
      var ok := g.SetLocation(Docked(starMap.stars[0]));
      var tid := GetId();
      var them := new Faction(tid, "them");
      factions := factions + [them];
    }

    /** The first half of construction: a new model whose star map has gone through one
        run of the generator. */
    static method Generate(rng: Random) returns (model: Model, ok: bool)
      modifies rng`pointsDrawn, rng`rollsDrawn
      ensures fresh(model) && fresh(model.starMap)
      ensures var r := PlaceStars([], rng.candidate, old(rng.pointsDrawn), StarCount);
        && ok == r.ok && rng.pointsDrawn == r.next && Locs(model.starMap.stars) == r.points
      ensures model.lastId == |model.starMap.stars| && model.factions == [] && model.currentFaction == null
      ensures model.starMap.starNames == Curated
      ensures forall i :: 0 <= i < |model.starMap.stars| ==>
        fresh(model.starMap.stars[i]) && NewStar(model.starMap.stars[i], i + 1, model.starMap.starNames, i)
    {
      model := new Model();
      assert Locs(model.starMap.stars) == [];
      ok := model.starMap.GenRandPolar(model, rng);
    }

    /** The factions construction ends with, their ids counted on from `base`: "us", the
        current faction, with one group docked at the first star (after the groups `docked0`
        docked there before), and "them" without groups. */
    predicate Populated(base: nat, docked0: seq<Group>)
      reads this, starMap, starMap.stars, factions, if |factions| > 0 then factions[0].groups else []
    {
      && lastId == base + 3 && |factions| == 2 && currentFaction == factions[0]
      && factions[0].id == base + 1 && factions[0].name == "us"
      && factions[1].id == base + 3 && factions[1].name == "them" && factions[1].groups == []
      && |factions[0].groups| == 1 && factions[0].groups[0].id == base + 2
      && |starMap.stars| > 0 && factions[0].groups[0].loc == Docked(starMap.stars[0])
      && starMap.stars[0].docked == docked0 + [factions[0].groups[0]]
    }

    /** The end of construction, once the star map is generated: the factions, and
        "us" as the current faction. */
    method Populate()
      requires |starMap.stars| > 0 && factions == []
      modifies this`lastId, this`factions, this`currentFaction, {starMap.stars[0]}`docked
      ensures Populated(old(lastId), old(starMap.stars[0].docked))
      ensures forall i :: 0 <= i < |starMap.stars| && starMap.stars[i] != starMap.stars[0] ==>
        unchanged(starMap.stars[i])
    {
      InitFactions();
      currentFaction := factions[0];
    }

    /** Builds the model: a generated star map of `StarCount` stars with ids from 1,
        then the factions; `null` when star placement gave up. */
    static method Create(rng: Random) returns (m: Model?)
      modifies rng`pointsDrawn, rng`rollsDrawn
      ensures var r := PlaceStars([], rng.candidate, old(rng.pointsDrawn), StarCount);
        (m == null <==> !r.ok) && rng.pointsDrawn == r.next
      ensures m != null ==>
        && fresh(m) && fresh(m.starMap)
        && Locs(m.starMap.stars) == PlaceStars([], rng.candidate, old(rng.pointsDrawn), StarCount).points
        && |m.starMap.stars| == StarCount
      ensures m != null ==> forall i :: 0 <= i < |m.starMap.stars| ==> m.starMap.stars[i].id == i + 1
      ensures m != null ==> m.starMap.starNames == Curated
      ensures m != null ==> m.Populated(StarCount, [])
    {
      var model, ok := Generate(rng);
      if !ok {
        return null;
      }
      model.Populate();
      m := model;
    }
  }
}
