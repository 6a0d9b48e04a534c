# Stars: a verified model of the star map and its viewport

This project models the core of a small 2D strategy game in Dafny. Two parts are covered.

The game world comes from `model.py`:
- points and their vector arithmetic;
- stars, and groups (fleets) that dock and undock at them;
- factions owning groups;
- the star map, which places 100 stars by rejection sampling and names them, curated names first, then pronounceable random ones;
- the model, which hands out ids and finds objects by id.

The viewport comes from `view.py`:
- the transform from star-map coordinates to screen pixels;
- panning and zooming;
- the hover query that picks the star under the pointer;
- the rule that the screen is redrawn exactly when the hovered star changes.

## Layout

- `wrappers.dfy`, module `Wrappers`: `Option`.
- `geometry.dfy`, module `Geometry`: the immutable `Point` value and its operations. Coordinates are exact reals.
- `star_field.dfy`, module `StarField`: the placement rule of the generator as functions over a stream of candidate points.
  - A slot takes the first candidate that does not collide with any placed star.
  - A slot gives up after 5 retries, i.e. on its 6th rejected candidate.
  - Proved: every placement is pairwise separated by more than 0.012.
- `star_names.dfy`, module `StarNames`: the curated names and the composition of random names from consonant and vowel fragments, over a stream of raw rolls.
  - Proved: the names are the curated list in order while it lasts, then random names of the shape capital letter plus lower-case letters.
- `world.dfy`, module `World`: the mutable game objects as classes with `modifies` frames.
  - The classes: `Random` (the injected random streams with cursors), `Star`, `Faction`, `Group`, `StarMap` and `Model`.
  - Each method is proved against the functions of the modules above.
- `viewport.dfy`, module `Viewport`: the `View` class, with the screen transform, pan, zoom and hover, and a ghost counter `redraws` standing for each repaint.

## Injected randomness

The source draws from Python's `random` module. The model replaces it with a `Random` object that holds two streams fixed in advance:
- `candidate(k)` is the k-th point the polar sampler would produce;
- `roll(k)` is the raw number behind the k-th `randint` call.

`RandInt(roll, k, lo, hi)` maps a raw roll into `[lo, hi]`. Every draw advances a cursor, so the generator's methods are proved equal to the stream functions `PlaceStars`, `TrySlot`, `NextName` and `RandomName` at the cursor where they start.

The star map hands out ids through a `getId` callback that it stores from the model. In this model the `Model` itself is passed as the `ids` parameter of `GenRandPolar`, `PlaceStar` and `AddStar`, and each id comes from its `GetId`.

In the game, `pickPoint` and `randint` share a single generator, so candidate points and name rolls interleave in one sequence of draws. The model has two independent streams and does not capture that interleaving. Since the results hold for every pair of streams, they hold for whatever interleaving the shared generator produces.

## Behaviour worth knowing

- **Re-docking lists a group twice.** `Group.setLocation(star)` appends the group to the new star's list. It does not undock the group from a star it is already docked at. `World.Group.SetLocation` states this behaviour.
- **Zoom changes only the scale.** `zoomIn` and `zoomOut` leave the pan offset as it is; it is not re-centred. There is no inverse transform from the screen back to the star map.
- **Zoom-out at the minimum.** Zooming out is a no-op, with no repaint, unless the scale is above 50.
- **Hover covers the whole screen.** The hover query scans every star, wherever the pointer is.
- **Undrawn stars.** `onMouseMove` reads each star's `screen` attribute. That attribute exists only after the star has been drawn. The model therefore asks that every star has been drawn (`Viewport.Drawn`) before a mouse move.

## Model

| member | source | states |
|---|---|---|
| Geometry.Add | model.py:44-45 | definition (coordinate-wise sum); its properties are in `Geometry.AddSubtractInverse` and `Geometry.SquareDistTranslate` |
| Geometry.Subtract | model.py:79-80 | definition (coordinate-wise difference); its properties are in `Geometry.AddSubtractInverse` |
| Geometry.Multiply | model.py:59-60 | definition (both coordinates scaled); its properties are in `Geometry.SquareDistScale` and `Geometry.Normal` |
| Geometry.Collides | model.py:47-48 | definition (squared distance at most the squared minimum distance, boundary included); its properties are in `Geometry.CollidesSymmetric` and `StarField.ClearIff` |
| Geometry.SquareDist | model.py:71-74 | the squared distance is never negative |
| Geometry.SquareDistSymmetric | model.py:71-74 | the squared distance from p to q equals that from q to p |
| Geometry.CollidesSymmetric | model.py:47-48 | p collides with q within a distance exactly when q collides with p |
| Geometry.SquareDistTranslate | model.py:44-45 | moving both points by the same offset leaves their squared distance unchanged |
| Geometry.SquareDistScale | model.py:59-60 | scaling both points by m scales their squared distance by m squared |
| Geometry.AddSubtractInverse | model.py:79-80 | subtracting q undoes adding q, and adding q undoes subtracting q |
| Geometry.Floor | model.py:53-54 | each coordinate is a whole number at most the original, within 1 of it |
| Geometry.Normal | model.py:62-66 | the zero point yields the zero point instead of a division; any other point yields a unit vector that, scaled back by the magnitude, is the point again |
| StarField.Clear | model.py:127-132 | definition (the scan of the placed stars); its properties are in `StarField.ClearIff` and `World.StarMap.PointOk` |
| StarField.ClearIff | model.py:127-132 | a candidate passes the check over the placed stars exactly when it collides with none of them |
| StarField.TrySlot | model.py:137-143 | an accepted candidate is clear of every placed star and is one of the slot's at most 6 draws; an exhausted slot has used exactly 6 draws |
| StarField.TrySlotFirstClear | model.py:137-143 | the accepted candidate is the first clear one, and the slot is exhausted exactly when all 6 of its candidates are rejected |
| StarField.PlaceStars | model.py:134-146 | placing n stars keeps the earlier stars as a prefix, adds at most n, and succeeds exactly when it adds n |
| StarField.PlacementClear | model.py:136-146 | every star placed is clear of all stars placed before it |
| StarField.SeparatedSnoc | model.py:127-132 | adding a candidate that is clear of a separated set keeps the set separated |
| StarField.ClearPrefixesSeparated | model.py:136-146 | a sequence whose every point is clear of the points before it is pairwise separated |
| StarField.PlacementSeparated | model.py:136-146 | placement preserves pairwise separation of more than 0.012 |
| StarField.SeparatedAnyOrder | model.py:127-132 | separation holds for every pair of distinct indices, in either order |
| StarField.GenerationOutcome | model.py:134-146 | one run on an empty map places exactly 100 stars on success and fewer on failure, all pairwise separated |
| StarNames.RandInt | model.py:161-164 | the roll lies in the inclusive range and equals lo plus the raw roll when that roll is in range |
| StarNames.GetConsonant | model.py:160-164 | one or two lower-case letters, from exactly two rolls |
| StarNames.GetVowel | model.py:165-169 | one or two lower-case letters, from exactly two rolls |
| StarNames.GetStart | model.py:170-176 | one to four lower-case letters, from three to five rolls |
| StarNames.GetEnd | model.py:177-182 | one to four lower-case letters, from three to five rolls |
| StarNames.GetSyllable | model.py:183-186 | two to four lower-case letters, from exactly four rolls |
| StarNames.GetMiddle | model.py:187-194 | at most eight lower-case letters, from one to nine rolls |
| StarNames.Upper | model.py:196 | a lower-case letter becomes its upper-case form; any other character is unchanged |
| StarNames.Capitalise | model.py:196 | capitalising keeps the length and turns a lower-case word into a capital letter followed by lower-case letters |
| StarNames.RandomName | model.py:155-196 | a random name is a capital letter followed by 1 to 15 lower-case letters, drawn with 7 to 19 rolls |
| StarNames.RandomNamesPronounceable | model.py:155-196 | every name the random-name source produces has that shape |
| StarNames.NextName | model.py:148-153 | definition (one naming step); its properties are in `World.NextNameFits`, `StarNames.NamesCurated`, `StarNames.NamesRandom` and `World.StarMap.GenStarName` |
| StarNames.GenNames | model.py:148-153 | n calls give n names, and the curated counter ends at the smaller of its start plus n and the list length |
| StarNames.NamesCurated | model.py:148-151 | while curated names are left, the names are the curated list in list order |
| StarNames.NamesRandom | model.py:152-153 | once the curated names are used up, every name is a random name |
| StarNames.CuratedKeepsCursor | model.py:148-151 | handing out curated names draws no roll |
| StarNames.FreshGeneratorCurated | model.py:112-119 | a fresh generator's first calls give exactly the curated list and draw no roll |
| World.Random.PickPoint | model.py:122-125 | the candidate is the next one in the stream, and the cursor advances by one |
| World.RemoveFirst | model.py:102-103 | when present, one occurrence of the element is removed and the rest is kept as a multiset; otherwise the list is unchanged |
| World.RemoveFirstAt | model.py:102-103 | the occurrence removed is the first one, and the order of the others is kept |
| World.DockThenUndock | model.py:96-103 | docking and then undocking a group that was not docked restores the list |
| World.Star.constructor | model.py:90-94 | a new star has its id and position, no name, no docked groups and no screen position |
| World.Star.Dock | model.py:96-97 | the group is appended at the end of the docked list, after the earlier entries in order |
| World.Star.Undock | model.py:102-103 | the first occurrence of the group is removed and nothing else; a group not listed is the error case |
| World.Star.SetScreen | model.py:105-106 | the screen position becomes the given point |
| World.Faction.constructor | model.py:4-7 | a new faction has its id and name and no groups |
| World.Group.constructor | model.py:13-17 | a new group has its id and faction and no location yet |
| World.Group.SetLocation | model.py:28-37 | moving to a point undocks from the old star and sets the point; docking appends to the new star and leaves an earlier star's list alone; the group is docked exactly when moved to a star; any other location is the error: the location and the old star's docked list are unchanged |
| World.LocsSnoc | model.py:146 | appending a star appends its position |
| World.StarMap.constructor | model.py:109-119 | a new map has no stars, the curated names and a zero name counter |
| World.StarMap.PointOk | model.py:127-132 | the candidate is accepted exactly when it is clear of every star on the map |
| World.StarMap.FillSlot | model.py:137-143 | one slot's draw loop is the slot rule from the current candidate cursor, and it leaves the cursor after the last candidate drawn |
| World.StarMap.RandomName | model.py:155-196 | the random name drawn at the roll cursor, which it advances |
| World.StarMap.GenStarName | model.py:148-153 | the next name and the new counter and roll cursor are those of one naming step; the counter never passes the list length |
| World.StarMap.AddStar | model.py:144-146 | a new star with the next id and exactly the name of one naming step (its counter and roll cursor advanced accordingly) is appended, and nothing else is added |
| World.StarMap.PlaceStar | model.py:136-146 | one slot either adds a star and advances the generator invariant, or reports the failure the placement rule predicts |
| World.StarMap.GenRandPolar | model.py:121-146 | the star positions and the success flag are exactly those of the placement rule; the new stars carry consecutive fresh ids and the curated-then-random names in order |
| World.NextNameFits | model.py:148-153 | the next name fits the counter position, and the counter moves one step until the list is exhausted |
| World.NameIndexStep | model.py:148-153 | counting n names then one more is counting n plus one names |
| World.GeneratedNamesFit | model.py:148-153 | a run of the name generator hands out, at each position, the curated name while any is left and a random name after (as `NameFits` says), and its counter ends where `NameIndexAfter` says |
| World.FirstWith | model.py:208-213 | the index of the first star (or group) with the id, or none exactly when none has it |
| World.FindInFactions | model.py:210-213 | a result is a faction or group with the id; none exactly when no faction or group has it |
| World.FindInFactionsOrder | model.py:210-213 | the result is decided by the first faction that has the id itself or in one of its groups: the faction when it has the id, otherwise its first group with the id |
| World.Model.constructor | model.py:199-201 | the id counter starts at zero with a fresh, empty star map |
| World.Model.GetId | model.py:223-225 | the id returned is one more than the last, and becomes the last, so successive ids strictly increase |
| World.Model.Lookup | model.py:207-213 | a star with the id is found before any faction or group, and it is the first such star; with no such star the result is the faction search's; a result has the id; none exactly when no star, faction or group has it |
| World.Model.GetObjectById | model.py:207-213 | the ordered scan returns exactly the lookup's object |
| World.Model.InitFactions | model.py:215-221 | adds "us" with one group docked at the first star and "them" with none, using the next three ids in order |
| World.Model.Generate | model.py:199-202 | a fresh model whose star positions are those of one placement run, with ids 1 to n and names curated then random |
| World.Model.Populate | model.py:203-205 | the factions are set up and "us" becomes current; stars other than the first are untouched |
| World.Model.Create | model.py:198-205 | fails exactly when placement fails; otherwise exactly 100 stars at the placement rule's positions, with ids 1 to 100, then "us", its group and "them" with ids 101 to 103 |
| Viewport.ScreenLoc | view.py:71-76 | the screen point minus the pan offset is the scaled position rounded down to whole pixels |
| Viewport.ScreenLocPan | view.py:78-80 | panning by a delta moves every star's screen point by exactly that delta |
| Viewport.ScreenLocCentre | view.py:71-76 | the map's centre is drawn at the pan offset |
| Viewport.ZoomedIn | view.py:82-84 | definition (the scale one step up); its properties are in `Viewport.ZoomKeepsScale`, `Viewport.ZoomRoundTrip` and `Viewport.View.ZoomIn` |
| Viewport.ZoomedOut | view.py:86-90 | definition (one step down above 50, otherwise unchanged); its properties are in `Viewport.ZoomKeepsScale`, `Viewport.ZoomRoundTrip` and `Viewport.View.ZoomOut` |
| Viewport.ZoomKeepsScale | view.py:82-90 | starting from 150, zooming keeps the scale a multiple of 10 and at least 50 |
| Viewport.ZoomRoundTrip | view.py:82-90 | zooming in then out restores any scale of at least 50; zooming out at 50 changes nothing |
| Viewport.Hovered | view.py:60-65 | the hovered index is a star within the hover radius |
| Viewport.HoveredNearest | view.py:60-65 | nothing is hovered exactly when no star is within the radius; otherwise the hovered star is a nearest one and strictly nearer than every earlier one, so ties go to the first |
| Viewport.FindHovered | view.py:55-65 | the scan's result is the hovered star, or null when none is in reach |
| Viewport.View.constructor | view.py:21-33 | a 300 by 200 screen, pan offset at its centre, scale 150, nothing hovered |
| Viewport.View.SetScreenLoc | view.py:71-76 | the star's screen point is the transform of its position, and nothing else changes |
| Viewport.View.Draw | view.py:35-43 | every star's screen point is recomputed and one repaint is counted |
| Viewport.View.ShiftFocus | view.py:78-80 | the pan offset grows by the delta; scale and hovered star are unchanged; one repaint |
| Viewport.View.ZoomIn | view.py:82-84 | the scale grows by exactly 10; one repaint |
| Viewport.View.ZoomOut | view.py:86-90 | the scale drops by 10 with a repaint when above 50; otherwise nothing changes |
| Viewport.View.OnMouseMove | view.py:55-69 | the hovered star becomes the nearest star in reach, or null; a repaint happens exactly when it changed, and otherwise nothing else changes |

## Left out

- Painting (`pygame` calls, `fill`, `circle`, `display.update`, the window-position environment variable): each repaint is counted by the ghost field `redraws`, and `Draw` recomputes the screen points as `drawStars` does.
- The trigonometry and distributions of `pickPoint` and `randint`: the random draws are the injected streams described above, so the model proves properties for every possible stream.
- `Point.magnitude` (a square root): `Geometry.Normal` takes the magnitude as a parameter that must square to the squared magnitude.
- `Point.round`, `copy`, `tuple`, `fromTuple`, `string` and the `getDisplayName` methods: formatting and conversions with nothing to prove.
- `Group.getLocation` and `Group.units`: a field read and a list nothing uses.
- `onClick`: it only prints.
- The controller (`control.py`): an event loop tied to `pygame` events; it is not part of this model.
- Floating point: coordinates and distances are exact reals, so rounding in the transform or in distance comparisons is not modelled.
- Exceptions: the list-removal error of `undock`, the attribute error of `setLocation` and the retry error of `genRandPolar` are modelled as a `false` result or a `null` model, not as unwinding.
- World.Group.IsDocked: a predicate without a contract of its own; `World.Group.SetLocation` states when it holds.
- World.Model.Create: does not restate the stars' names after the factions are set up; `World.Model.Generate` states them, and `Populate` changes only the first star's docked list.
- World.Model.Generate: does not state that the new stars are distinct objects (it follows from their distinct ids, but is not proved).
- StarNames.GenNames: does not state the roll cursor after a run that reaches random names; `World.StarMap.GenStarName` states it for each call.
- World.StarMap.GenRandPolar: states each random name by its shape (`NameFits`) rather than as the exact draw; the exact draw is stated per call by `World.StarMap.GenStarName`.
- Viewport.View.OnMouseMove: requires every star to have a screen point; in the code, a star that has never been drawn makes the hover scan fail.
