/**
 The value-level model of one Tog: its state, the inputs of one animation frame, and one
 function per stage of the per-frame update. The class in tog.dfy is proved against these
 functions, and tog_properties.dfy proves what the stages promise.
 */
module TogModel {

  datatype Option<T> = None | Some(value: T)

  /** An `{x, y}` pair: a position, a pointer coordinate, a delta or a sprite extent. */
  datatype Point = Point(x: real, y: real)

  /** A direction vector; `chase` is set while the pointer is near. */
  datatype Heading = Heading(x: real, y: real, chase: bool)

  /** An arc in progress: the per-frame displacement and the frame counters. */
  datatype Soaring = Soaring(remainingX: real, remainingY: real, timeInFlight: int, timeRemaining: int)

  /** The fixed cycle of bobbing offsets that the jump-phase generator yields forever. */
  const Phases: seq<int> := [0, 1, 1, 2, -1, -2, -1, 0]

  /** The generator's hidden cursor: the index of the next phase it yields. */
  type Cursor = i: nat | i < 8

  /** Per-entity parameters fixed at construction. */
  datatype Config = Config(xWrap: real, yWrap: real, skipChance: real, inclination: Point, pep: real)

  /** The mutable part of a Tog; `scale` records the scale last given to its sprite. */
  datatype TogState = TogState(
    position: Point,
    heading: Heading,
    framesToSkip: nat,
    cursor: Cursor,
    soaring: Option<Soaring>,
    scale: real)

  /** The random values `reconsider` may draw: the roll against `skipChance`, a fresh heading, and
      the extra rest on top of 10 frames. */
  datatype Draws = Draws(roll: real, heading: Point, skip: nat)

  /** One frame's outside inputs: pointer position, sprite extent, random draws. */
  datatype Frame = Frame(pointer: Point, extent: Point, draws: Draws)

  /** The ranges the random sources produce: a roll in [0,1), heading components in [-1,1],
      an integer extra rest in [0,30]. */
  predicate ValidDraws(d: Draws) {
    0.0 <= d.roll < 1.0 &&
    -1.0 <= d.heading.x <= 1.0 && -1.0 <= d.heading.y <= 1.0 &&
    d.skip <= 30
  }

  /** The ranges of the construction-time draws. */
  predicate ValidConfig(c: Config) {
    0.0 <= c.skipChance < 1.0 &&
    0.9 <= c.inclination.x <= 1.1 && 0.9 <= c.inclination.y <= 1.1 &&
    0.75 <= c.pep <= 1.75
  }

  /** A flight lasts 30 to 120 frames, and at least one frame of it is left while it is recorded. */
  predicate ValidSoaring(sr: Soaring) {
    30 <= sr.timeInFlight <= 120 && 1 <= sr.timeRemaining <= sr.timeInFlight
  }

  predicate ValidState(s: TogState) {
    s.soaring.Some? ==> ValidSoaring(s.soaring.value)
  }

  /** One axis of `checkWrap`: past the far edge (beyond the sprite's extent) jumps to 0, past the
      near edge jumps to `wrap - extent`. */
  function WrapAxis(v: real, wrap: real, extent: real): (r: real)
    ensures 0.0 <= wrap && 0.0 <= extent ==> -extent <= r <= wrap + extent
    ensures -extent <= v <= wrap + extent ==> r == v
    ensures v > wrap + extent ==> r == 0.0
    ensures v <= wrap + extent && v < 0.0 - extent ==> r == wrap - extent
  {
    if v > wrap + extent then 0.0
    else if v < 0.0 - extent then wrap - extent
    else v
  }

  /** The fraction of the peak scale reached with `timeRemaining` of `timeInFlight` frames left:
      it climbs linearly to 1 at the midpoint of the flight and falls back linearly. */
  function Envelope(timeInFlight: int, timeRemaining: int): (e: real)
    requires timeInFlight > 0
    ensures 0 <= timeRemaining <= timeInFlight ==> 0.0 <= e <= 1.0
  {
    var total := timeInFlight as real;
    var left := timeRemaining as real;
    var midPoint := total / 2.0;
    if midPoint > left then
      QuotientBounds(left * 2.0, total);
      (left * 2.0) / total
    else
      QuotientBounds((total - left) * 2.0, total);
      (total - left) * 2.0 / total
  }

  /** Dividing by a positive `b` keeps `a`'s place relative to 0 and to `b`: the quotient is
      non-negative, at most 1, below 1 or equal to 1 exactly as `a` is. */
  lemma QuotientBounds(a: real, b: real)
    requires 0.0 < b
    ensures 0.0 <= a ==> 0.0 <= a / b
    ensures a <= b ==> a / b <= 1.0
    ensures a < b ==> a / b < 1.0
    ensures a == b ==> a / b == 1.0
  {
    assert a / b * b == a;
  }

  /** The sprite scale drawn for an envelope value. */
  function SpriteScale(e: real): real {
    1.0 + e * 1.5
  }

  /** One heading component under the pointer reaction: the thresholds are at 1, not 0, so a
      delta of exactly 1 keeps the current component. */
  function Steer(delta: real, current: real): real {
    if delta < 1.0 then 1.0
    else if delta > 1.0 then -1.0
    else current
  }

  /** The squared distance from `p` to `q`, compared against 100 * 100 instead of taking a root. */
  function SquaredDistance(p: Point, q: Point): real {
    (p.x - q.x) * (p.x - q.x) + (p.y - q.y) * (p.y - q.y)
  }

  /** `determineNewHeading`: near the pointer both components are steered and `chase` is set;
      otherwise only `chase` is cleared. */
  function React(heading: Heading, position: Point, pointer: Point): Heading {
    if SquaredDistance(position, pointer) < 10000.0 then
      Heading(Steer(position.x - pointer.x, heading.x), Steer(position.y - pointer.y, heading.y), true)
    else
      heading.(chase := false)
  }

  /** The cursor after the generator has yielded one value. */
  function Advance(c: Cursor): Cursor {
    (c + 1) % 8
  }

  /** The cursor after the generator has yielded `k` values from `start`. */
  function Shift(start: Cursor, k: nat): Cursor
    decreases k
  {
    if k == 0 then start else Advance(Shift(start, k - 1))
  }

  /** The first `n` values the generator yields when its cursor starts at `start`. */
  function Emitted(start: Cursor, n: nat): (e: seq<int>)
    ensures |e| == n
    decreases n
  {
    if n == 0 then [] else [Phases[start]] + Emitted(Advance(start), n - 1)
  }

  /** `reconsider`: a roll under `skipChance` while not chasing picks a fresh heading (which has
      no `chase` flag) and a rest of 10 to 40 frames; anything else changes nothing. */
  function Reconsidered(s: TogState, skipChance: real, d: Draws): TogState {
    if d.roll < skipChance && !s.heading.chase then
      s.(framesToSkip := 10 + d.skip, heading := Heading(d.heading.x, d.heading.y, false))
    else
      s
  }

  /** `getJumpOffset`'s effect on the state: the generator yields once, and a yielded 0 triggers
      `reconsider`. */
  function Jumped(s: TogState, skipChance: real, d: Draws): TogState {
    var advanced := s.(cursor := Advance(s.cursor));
    if Phases[s.cursor] == 0 then Reconsidered(advanced, skipChance, d) else advanced
  }

  /** `soar`: starts an arc to the destination only when none is in progress. */
  function Launched(s: TogState, timeInFlight: int, destX: int, destY: int): TogState
    requires timeInFlight > 0
  {
    if s.soaring.None? then
      var t := timeInFlight as real;
      s.(soaring := Some(Soaring((destX as real - s.position.x) / t, (destY as real - s.position.y) / t,
                                 timeInFlight, timeInFlight)))
    else
      s
  }

  /** `teleport`: floors a uniform fraction of each world dimension. */
  function Teleported(s: TogState, xWrap: real, yWrap: real, rx: real, ry: real): TogState {
    s.(position := Point((rx * xWrap).Floor as real, (ry * yWrap).Floor as real))
  }

  /** The soaring counter after one frame of flight: cleared when it reaches 0. */
  function CountDown(sr: Soaring): Option<Soaring> {
    if sr.timeRemaining - 1 == 0 then None else Some(sr.(timeRemaining := sr.timeRemaining - 1))
  }

  /** The displacement of an ordinary frame: the heading scaled per axis by the inclination and by
      the pep, with the bobbing phase subtracted vertically before the pep. */
  function Velocity(c: Config, heading: Heading, phase: int): Point {
    Point(heading.x * c.inclination.x * c.pep, (heading.y * c.inclination.y - phase as real) * c.pep)
  }

  /** `getUpdatedPosition` on a non-resting frame; the new position is put into `position`, as
      `move` does right after. */
  function Moved(c: Config, s: TogState, f: Frame): (r: TogState)
    requires ValidState(s)
    ensures ValidState(r)
  {
    match s.soaring
    case Some(sr) =>
      s.(position := Point(s.position.x + sr.remainingX, s.position.y + sr.remainingY),
         scale := SpriteScale(Envelope(sr.timeInFlight, sr.timeRemaining)),
         soaring := CountDown(sr))
    case None =>
      var reacted := s.(scale := 1.0, heading := React(s.heading, s.position, f.pointer));
      var delta := Velocity(c, reacted.heading, Phases[s.cursor]);
      Jumped(reacted, c.skipChance, f.draws).(position :=
        Point(WrapAxis(s.position.x + delta.x, c.xWrap, f.extent.x),
              WrapAxis(s.position.y + delta.y, c.yWrap, f.extent.y)))
  }

  /** `step`: a resting frame only counts the rest down. */
  function Stepped(c: Config, s: TogState, f: Frame): (r: TogState)
    requires ValidState(s)
    ensures ValidState(r)
  {
    if s.framesToSkip > 0 then s.(framesToSkip := s.framesToSkip - 1) else Moved(c, s, f)
  }

  /** The state after one `step` per frame of `frames`, in order. */
  function Run(c: Config, s: TogState, frames: seq<Frame>): (r: TogState)
    requires ValidState(s)
    ensures ValidState(r)
    decreases |frames|
  {
    if frames == [] then s
    else
      Run(c, Stepped(c, s, frames[0]), frames[1..])
  }
}
