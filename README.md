# Stalagmometer page: parameter model and droplet animation

The page estimates a liquid's surface tension by the drop-weight method. The
user picks a liquid (water, oil, alcohol) and a planet (Earth, Moon, Mars) and
enters a drop mass, a radius and a drop count. On "calculate" the page shows

    surfaceTension * (dropMass * gravity) / (2 * PI * radius / 100)

Meanwhile a canvas animation draws a drop. The drop grows from the tube
mouth down to a detachment line, then detaches and shrinks until it is gone,
and then starts over.

This project models the two pieces of logic in `script.js` that do not depend
on the page:

- `parameters.dfy`, module `ParameterModel`:
  - the two catalogs, as `map<string, real>`;
  - the parameter variables, as the class `Experiment`, with one method per
    input handler;
  - the calculation, as the function `Estimate` on a `Parameters` snapshot
    and the method `Experiment.Calculate`, which computes it step by step
    as the click handler does.
  - A key that is not a catalog entry is `None`. In the page such a key
    reads as `undefined`, or as an inherited function or object for names
    such as `constructor`, `toString` or `__proto__`. Either way the
    estimate becomes NaN. The estimate is
    computed in exact real arithmetic. It is `NotFinite` when a catalog
    entry is undefined or the radius is zero: those are the cases where the
    page shows NaN or Infinity for every input. Double-precision overflow and
    underflow on extreme inputs, which can also produce Infinity, are not
    modelled (see "## Left out").
- `droplet.dfy`, module `DropletAnimation`:
  - the three droplet variables, as the class `Droplet`, whose `Tick`
    method performs one frame's movement block and reset block;
  - the same frame as the pure function `Step`, with lemmas about it.
  - Arithmetic is on exact reals. With exact reals the cycle is 600 growing
    frames followed by 80 detaching frames, and the last of those resets
    the drop. The initial state therefore recurs exactly every 680 frames.
  - `Droplet` carries a ghost frame counter. It ties the three fields to the
    closed form `Phase(frame)`, so each `Tick` preserves the reachable-state
    invariant.

Two points follow the code literally:

- The code never stores the selected liquid or planet key. The select
  handlers store only the looked-up number, so `Experiment` has no key
  fields.
- An unknown key is not rejected. The code stores whatever the object
  literal yields for it. That is `undefined`, or an inherited function or
  object for names such as `constructor`. Both make the estimate NaN, and the
  model represents both as `None`.

The stretch factor is kept as written. The drop is drawn stretched (factor
1.4) while it is *not* detaching, and round while it detaches (`DrawnShape`).

## Model

| member | source | states |
|---|---|---|
| DropletAnimation.Move | script.js:115-121 | the movement block: a drop above the line and not detaching moves down 0.5; any other drop is marked detaching, loses 0.1 of radius and moves down 0.75 |
| DropletAnimation.ResetIfGone | script.js:124-128 | the reset block: a drop whose radius is at or below zero is replaced by the initial state (50, 8, false); any other drop is kept |
| DropletAnimation.Step | script.js:114-128 | one frame's update: the movement block followed by the reset block |
| DropletAnimation.GrowingTick | script.js:115-116 | a growing frame (above the line, not detaching, with radius left) adds exactly 0.5 to y and leaves the radius and the detaching flag unchanged |
| DropletAnimation.DetachingTick | script.js:117-128 | any other frame sets the flag, takes exactly 0.1 off the radius and adds exactly 0.75 to y, or resets to the initial state when that leaves no radius |
| DropletAnimation.ResetRestoresInitial | script.js:124-128 | when the movement leaves the radius at or below zero, the frame ends in exactly (50, 8, false) |
| DropletAnimation.DetachingPersists | script.js:115-128 | a detaching drop stays detaching exactly while its radius stays above 0.1; when the flag clears, the state is the initial one |
| DropletAnimation.OnlyResetClearsDetaching | script.js:115-128 | a frame that ends not detaching either reset the drop or started from a growing drop above the line |
| DropletAnimation.StepPhase | script.js:114-128 | one frame moves the closed-form cycle state at position k to position k+1 mod 680 |
| DropletAnimation.RunPhase | script.js:114-128 | n frames from the initial state give the closed-form state at position n mod 680 |
| DropletAnimation.ReachableInv | script.js:32-128 | every reachable state is either not detaching with radius 8 and 50 <= y <= 350, or detaching with y > 350 and 0 < radius < 8 |
| DropletAnimation.FullCycle | script.js:114-128 | 600 frames bring the drop to y = 350 at full radius, and 680 frames bring back the initial state |
| DropletAnimation.InitialRecurs | script.js:124-128 | the initial state recurs after n frames if and only if n is a multiple of 680 |
| DropletAnimation.Periodic | script.js:114-128 | the state after n + 680 frames equals the state after n frames (no drift) |
| DropletAnimation.DrawnShape | script.js:82-111 | in every reachable state the drawn vertical radius is 11.2 while growing and equals the positive radius while detaching, because the stretch flag is the negated detaching flag |
| DropletAnimation.StretchFactor | script.js:84 | the vertical stretch of the drawn ellipse: 1.4 when stretching, 1 otherwise |
| DropletAnimation.DrawnVerticalRadius | script.js:82-111 | the drawn vertical radius: the radius times the stretch factor, with the stretch flag set to the negation of the detaching flag |
| DropletAnimation.Droplet.constructor | script.js:32-34 | the droplet starts at y = 50, radius 8, not detaching |
| DropletAnimation.Droplet.Tick | script.js:114-128 | one frame's update leaves the fields equal to Step of the old fields and keeps the reachable-state invariant |
| ParameterModel.Lookup | script.js:43-51 | a catalog lookup: the entry for a catalog key, and `None` for any other key |
| ParameterModel.Circumference | script.js:61 | the drop's circumference in metres, 2 * Pi * radius / 100, for a radius in centimetres |
| ParameterModel.CatalogsWellFormed | script.js:2-13 | the liquid catalog has exactly the keys water, oil, alcohol and the planet catalog has exactly earth, moon, mars, with all values positive |
| ParameterModel.Estimate | script.js:60-64 | the estimate is finite exactly when both catalog values are defined and the radius is non-zero, and then the estimate times the circumference equals tension times mass times gravity |
| ParameterModel.SelectableKeys | script.js:43-51 | a liquid or planet selection yields a defined value exactly for the three keys of its catalog, always positive, and `None` for any other key (in the page `undefined` or an inherited prototype member, both of which make the estimate NaN) |
| ParameterModel.EstimateIgnoresDropCount | script.js:59-64 | changing the drop count never changes the estimate |
| ParameterModel.EstimatePositive | script.js:60-64 | positive tension, gravity, mass and radius give a finite positive estimate |
| ParameterModel.EstimateProportionalToMass | script.js:60-64 | scaling the drop mass by k scales the estimate by k |
| ParameterModel.WaterOnEarthExample | script.js:60-64 | water on Earth with 0.002 kg and 0.5 cm gives an estimate in [0.04535, 0.04545), which reads 0.0454 at four decimals |
| ParameterModel.Experiment.constructor | script.js:27-31 | start-up parameters: water's tension 0.0728, Earth's gravity 9.8, and the form's mass, radius and count |
| ParameterModel.Experiment.SelectLiquid | script.js:43-46 | selecting a liquid sets the tension to its catalog entry (None for an unknown key) and changes no other parameter |
| ParameterModel.Experiment.SelectPlanet | script.js:48-51 | selecting a planet sets the gravity to its catalog entry (None for an unknown key) and changes no other parameter |
| ParameterModel.Experiment.SetDropMass | script.js:54 | the mass input replaces the drop mass and nothing else |
| ParameterModel.Experiment.SetRadius | script.js:55 | the radius input replaces the radius and nothing else |
| ParameterModel.Experiment.SetDropCount | script.js:56 | the count input replaces the drop count and nothing else |
| ParameterModel.Experiment.Calculate | script.js:59-64 | the calculate action returns the estimate of the current parameters and modifies none of them |
| ParameterModel.Session | script.js:43-64 | after selecting a catalog liquid and planet and entering mass and a non-zero radius, two calculations give the same finite value, whose product with the circumference is catalog tension times mass times catalog gravity |

## Left out

- DOM lookups and event wiring (script.js:16-24, 43, 48, 54-56, 59) are not modelled. The handlers are methods that the host calls.
- `console.log` output and the result label text (script.js:45, 50, 66) are not modelled. They are output only.
- Canvas drawing is not modelled: `clearRect`, `drawStalagmometer`, the ellipse in `drawDroplet` and `drawGravityArrow` (script.js:70-112). These are foreign rendering calls. Only the stretch-factor choice is kept, as `StretchFactor` and `DrawnVerticalRadius`.
- `requestAnimationFrame` rescheduling (script.js:130, 134) is host scheduling. The model has one `Tick` per frame, and `Run` iterates `Step`.
- `parseFloat` and `parseInt` of raw field text, and NaN from unparsable input (script.js:29-31, 54-56), are not modelled. The setters and the constructor take already-parsed numbers.
- Estimate: the arithmetic is exact real, not IEEE-754 double. NaN and Infinity are both collapsed into `NotFinite`, including the sign of Infinity at radius 0. Double rounding, overflow and underflow are not captured. For example, a mass of 1e308 makes the weight overflow to Infinity, and a radius of 5e-324 makes the circumference underflow to 0. In both cases the page shows Infinity and the model gives `Finite`. The finiteness statement (finite exactly when both entries are defined and the radius is non-zero) holds of the exact-real model only.
- `toFixed(4)` rounding to a string (script.js:64) is not modelled. `Estimate` is the exact real before rounding.
- Floating-point accumulation in the droplet is not modelled. Growth is exact in doubles (steps of 0.5), but 0.1 is not. In double arithmetic, 8 minus 0.1 taken 80 times is about 1.17e-14, still above zero. So in the page the drop detaches for 81 frames, is last drawn at y = 410, and the cycle repeats every 681 frames, not 680. The exact-real lemmas (`FullCycle`, `InitialRecurs`, `Periodic`, `ReachableInv`) state the 80- and 680-frame counts of the real-number model only.
- The value of pi is only approximated. `Pi` is Math.PI written to 16 significant digits. Every lemma except `WaterOnEarthExample` uses only that it is positive.
