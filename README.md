# Tog motion model

A Dafny model of the per-frame motion of one Tog, the small wandering sprite of the Together
animation (`app/Tog.ts`). A Tog keeps a position, a heading with a `chase` flag, a count of frames
still to rest, the cursor of its endless jump-phase generator over `[0, 1, 1, 2, -1, -2, -1, 0]`,
an optional soaring arc and the scale last given to its sprite. Every animation frame calls
`step`, which:

1. rests when frames are left to skip, counting one off;
2. otherwise, while soaring, moves by the arc's per-frame step without wrapping, sets the sprite
   scale from a triangular envelope and counts the arc down, clearing it at 0;
3. otherwise reacts to the pointer (steering towards it and setting `chase` when it is closer
   than 100), takes the next jump phase and subtracts it from the vertical displacement, lets a
   phase of 0 trigger `reconsider` (a new random heading and a 10 to 40 frame rest, with
   probability `skipChance`, unless chasing), and wraps the result per axis at the world's
   edges.

A pointer hover calls `soar`, which starts a 30 to 120 frame arc towards a random point unless
one is in progress.

Files:

- `tog_model.dfy`, module `TogModel`: value types (`Point`, `Heading`, `Soaring`, `TogState`,
  `Config`, `Draws`, `Frame`) and one function per stage of the update (`WrapAxis`, `Envelope`,
  `React`, `Emitted`, `Reconsidered`, `Jumped`, `Launched`, `Moved`, `Stepped`, `Run`, ...).
- `tog.dfy`, module `TogEntity`: class `Tog` with the source's fields and methods. Each method
  changes the fields in place and states its new state as a stage function of the old state. A
  ghost field `yielded` records every value the jump-phase generator has produced. The object
  invariant `Valid()` ties that history to the periodic sequence.
- `tog_properties.dfy`, module `TogProperties`: the lemmas, about one frame and about runs of
  frames.

Outside inputs are parameters. The source reads the pointer position from the rendering library
on every frame that is not a rest, and the sprite's width and height only on ground frames (in
`checkWrap`). `Step` takes all three as parameters on every frame. Every random draw has its range
stated as a precondition:

- the `reconsider` roll is in [0,1);
- fresh heading components are in [-1,1];
- the extra rest is an integer in [0,30];
- flight time is an integer in [30,120];
- flight destination is an integer between 0 and the world size;
- `teleport` fractions are in [0,1);
- the construction-time skip chance (`Math.random()`) is in [0,1);
- inclination components are in [0.9,1.1] and pep is in [0.75,1.75].

Arithmetic is on `real`. The distance test compares the squared distance with 10000;
`DistanceThreshold` shows that this equals comparing the square root with 100.

Details of the code the model keeps as written:

- Wrap-around moves only values strictly beyond `wrap + extent` (to 0) or strictly below
  `-extent` (to `wrap - extent`). A coordinate of exactly `wrap + extent` stays, so the wrapped
  range is the closed `[-extent, wrap + extent]`.
- A reconsidered heading has two independent components, each drawn from [-1,1].
- The pointer position is read from the renderer on every frame that is not a rest, and is used
  only on ground frames.
- The horizontal and vertical displacements are multiplied by the per-Tog inclination and pep.
- A frame moves by the heading as it stands after the pointer reaction.
  `determineNewHeading`'s result is read before `getJumpOffset` runs, so a heading chosen by
  `reconsider` shows only on a later frame.
- The steering thresholds compare the position-minus-pointer delta with 1. A delta of exactly 1
  keeps that component.

## Model

| member | source | states |
|---|---|---|
| TogModel.WrapAxis | app/Tog.ts:152-166 | one axis of the wrap: a value beyond `wrap + extent` becomes 0; otherwise a value below `-extent` becomes `wrap - extent`; values inside [-extent, wrap+extent] are kept; with non-negative size and extent the result lies in that range |
| TogModel.Envelope | app/Tog.ts:113-116 | the soaring scale fraction lies in [0,1] whenever 0 <= timeRemaining <= timeInFlight |
| TogModel.Emitted | app/Tog.ts:220-227 | the first n values of the jump-phase generator form a sequence of length n |
| TogModel.Moved | app/Tog.ts:104-150 | a non-resting frame keeps the soaring record valid (30..120 frames, 1..timeInFlight left, or cleared) |
| TogModel.Stepped | app/Tog.ts:54-63 | one frame keeps the soaring record valid |
| TogModel.Run | app/Tog.ts:54-63 | any number of frames keeps the soaring record valid |
| TogProperties.ShiftMod | app/Tog.ts:220-227 | after k yields the generator's cursor is (start + k) mod 8 |
| TogProperties.EmittedAt | app/Tog.ts:220-227 | the k-th yielded value is the phase under the cursor advanced k times |
| TogProperties.EmittedSnoc | app/Tog.ts:220-227 | yielding once more appends the phase under the current cursor |
| TogProperties.EmittedCycle | app/Tog.ts:220-227 | every yielded value is one of the 8 phases, and the yielded sequence has period 8 |
| TogProperties.WrapIdempotent | app/Tog.ts:152-166 | wrapping a wrapped coordinate again changes nothing |
| TogProperties.WrapThreshold | app/Tog.ts:153-154 | exactly `wrap + extent` is not wrapped; anything beyond it becomes 0 |
| TogProperties.EnvelopeSymmetric | app/Tog.ts:113-116 | the envelope is symmetric: t frames left and t frames flown give the same scale |
| TogProperties.EnvelopePeak | app/Tog.ts:113-116 | the envelope equals 1 exactly at the midpoint (2t == T) and is 0 at both ends of [0, timeInFlight]; the first frame of a flight (timeRemaining = timeInFlight) draws at scale 1 |
| TogProperties.SoaringScaleRange | app/Tog.ts:113-119 | during a recorded flight the sprite scale `1 + 1.5 * envelope` lies in [1, 2.5] |
| TogProperties.DistanceThreshold | app/Tog.ts:176-178 | for a non-negative root of the squared distance, root < 100 exactly when squared < 10000 |
| TogProperties.ReactRule | app/Tog.ts:168-199 | `chase` is set exactly when the squared distance is below 10000; then each component is 1 below a delta of 1, -1 above it, unchanged at exactly 1; otherwise x and y are unchanged |
| TogProperties.RestingStep | app/Tog.ts:55-58 | a frame with rest left only decrements `framesToSkip`; position, heading, soaring, cursor and scale are unchanged |
| TogProperties.SoaringStep | app/Tog.ts:107-126 | a flying frame adds the arc step to the position unwrapped, decrements the time left and clears the arc at 0, keeps heading, rest and cursor, and draws at a scale in [1, 2.5] |
| TogProperties.OrdinaryStep | app/Tog.ts:127-149 | a frame on the ground advances the cursor and resets scale to 1. When phase 0, a roll under skipChance and a far pointer coincide it rests 10..40 frames with the drawn heading; otherwise it keeps the reacted heading with no rest. The position is the wrapped displacement of the reacted heading and lies within the wrap bounds |
| TogProperties.MovedPosition | app/Tog.ts:131-149 | the ground position is the wrapped sum of the old position and the reacted heading's displacement |
| TogProperties.ReconsiderRule | app/Tog.ts:212-218 | `reconsider` changes the state only when roll < skipChance and not chasing; then the state is the old one with the rest set to `10 + skip` (10..40) and the heading set to the drawn components (each in [-1,1]) with chase off, and nothing else changes |
| TogProperties.JumpedRule | app/Tog.ts:201-210 | `getJumpOffset` advances the generator and calls `reconsider` exactly when the phase yielded is 0 |
| TogProperties.LaunchedWhileSoaring | app/Tog.ts:85-86 | `soar` during a flight changes nothing, so `soar` is idempotent |
| TogProperties.LaunchedFromGround | app/Tog.ts:85-95 | `soar` on the ground records a valid arc with timeRemaining = timeInFlight and changes nothing else |
| TogProperties.RunAppend | app/Tog.ts:54-63 | running two frame lists in turn is running their concatenation |
| TogProperties.RestThrough | app/Tog.ts:55-58 | k <= framesToSkip frames reduce the rest by exactly k and change nothing else |
| TogProperties.FlightStep | app/Tog.ts:107-126 | the whole state after one flying frame |
| TogProperties.FlightProgress | app/Tog.ts:107-126 | after k frames of a flight with at least k left: position moved k arc steps, k fewer frames left (cleared at 0), scale from the last flown frame, heading, cursor and rest unchanged |
| TogProperties.FlightLands | app/Tog.ts:85-126 | after `soar`, rest frames plus timeInFlight frames: the arc stays recorded on every earlier frame. At the end the Tog stands exactly at the destination, with the arc cleared, no rest, and heading and cursor as before |
| TogProperties.TeleportedInWorld | app/Tog.ts:97-102 | with a positive world size and fractions in [0,1) the teleport target lies in [0,xWrap) x [0,yWrap) |
| TogEntity.Tog.constructor | app/Tog.ts:22-48 | position as given, a drawn heading with no chase, no rest, no flight, cursor 0, scale 1, the construction draws stored; the invariant holds |
| TogEntity.Tog.Step | app/Tog.ts:54-63 | the new state is `Stepped` of the old one; the generator history grows by the yielded phase exactly on ground frames; the invariant is kept |
| TogEntity.Tog.Move | app/Tog.ts:65-68 | the position becomes the given point |
| TogEntity.Tog.Soar | app/Tog.ts:85-95 | the new state is `Launched` of the old one; the invariant is kept |
| TogEntity.Tog.Teleport | app/Tog.ts:97-102 | the new state is `Teleported` of the old one (floored fractions of the world size) |
| TogEntity.Tog.GetUpdatedPosition | app/Tog.ts:104-150 | returns the position of `Moved`, leaves the rest of the state as `Moved` has it, and records a yielded phase exactly when not soaring |
| TogEntity.Tog.CheckWrap | app/Tog.ts:152-166 | each coordinate is `WrapAxis` of its axis: beyond the far edge it becomes 0, below the near edge `wrap - extent`, and it lies within [-extent, wrap+extent] whenever wrap and extent are non-negative |
| TogEntity.Tog.DetermineNewHeading | app/Tog.ts:168-199 | the heading becomes `React` of the old heading and is returned |
| TogEntity.Tog.GetJumpOffset | app/Tog.ts:201-210 | returns the phase under the cursor (0 when it is 0), records it in the history, and the state becomes `Jumped` |
| TogEntity.Tog.Reconsider | app/Tog.ts:212-218 | the state becomes `Reconsidered` of the old one |
| TogEntity.Tog.NextPhase | app/Tog.ts:220-227 | yields `Phases[cursor]`, advances the cursor modulo 8, appends the value to the history and keeps that history equal to the periodic sequence |

## Left out

- Rendering: sprite creation, `addTo`, `sprite.position.set`, `cacheAsBitmap`, the hit area and
  the `mouseover` subscription are calls into the rendering library. The model records only the
  position and the scale value given to the sprite. The hover subscription becomes the callable
  `Soar`.
- The sprite's width and height come from the rendering library. They are passed per frame as
  `extent` and not derived from the drawn rectangle and the sprite scale.
- `app/index.ts` (canvas setup, `generateTogs(500)`, which builds 499 Togs, and the animation-frame loop) is platform
  plumbing and is not part of this model.
- Floating-point rounding: all arithmetic is on exact reals, and `Math.sqrt` is replaced by
  comparing squares.
- `teleport`'s `console.log` is output only and is left out.
- The constructor's unused `heading` argument is dropped.
- Randomness is not modelled as a distribution. Each draw is a caller-supplied value within the
  range its source produces.
- TogEntity.Tog.DetermineNewHeading: reads the heading from the object's own field instead of taking it as a parameter, because its only caller passes `this.heading` and the method mutates that same object.
- TogEntity.Tog.GetUpdatedPosition: computes its displacement through `Velocity` and its scale through `Envelope` instead of reassigning local variables, because the values equal the source's expressions and the inline form costs too much to verify.
