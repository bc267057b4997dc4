/**
 What the stages of the per-frame update promise, proved about the functions of TogModel:
 the jump-phase cycle, the wrap, the scale envelope, the pointer reaction, resting, flying and
 reconsidering, one frame at a time and over runs of frames.
 */
module TogProperties {
  import opened TogModel

  // ---------------------------------------------------------------------------------------------
  // The jump-phase generator

  /** Advancing first and then `k` times is advancing `k + 1` times. */
  lemma {:induction false} ShiftFront(start: Cursor, k: nat)
    ensures Shift(Advance(start), k) == Shift(start, k + 1)
    decreases k
  {
    if k > 0 {
      ShiftFront(start, k - 1);
    }
  }

  /** Advancing `k` times from `start` lands on `(start + k) % 8`: the cursor is an index into
      `Phases` advanced modulo its length. */
  lemma {:induction false} ShiftMod(start: Cursor, k: nat)
    ensures Shift(start, k) == (start + k) % 8
    decreases k
  {
    if k > 0 {
      ShiftMod(start, k - 1);
      var m := (start + k - 1) % 8;
      var q := (start + k - 1) / 8;
      assert start + k == 8 * q + (m + 1);
      if m < 7 {
        assert (start + k) % 8 == m + 1;
      } else {
        assert start + k == 8 * (q + 1);
        assert (start + k) % 8 == 0;
      }
    }
  }

  /** The k-th value yielded from cursor `start` is the phase under the cursor advanced `k` times. */
  lemma {:induction false} EmittedAt(start: Cursor, n: nat, k: nat)
    requires k < n
    ensures Emitted(start, n)[k] == Phases[Shift(start, k)]
    decreases k
  {
    if k > 0 {
      var rest := Emitted(Advance(start), n - 1);
      assert Emitted(start, n)[k] == rest[k - 1];
      EmittedAt(Advance(start), n - 1, k - 1);
      ShiftFront(start, k - 1);
    }
  }

  /** Yielding one more value appends the phase under the cursor reached so far. */
  lemma {:induction false} EmittedSnoc(start: Cursor, n: nat)
    ensures Emitted(start, n + 1) == Emitted(start, n) + [Phases[Shift(start, n)]]
    decreases n
  {
    if n > 0 {
      var last := [Phases[Shift(start, n)]];
      EmittedSnoc(Advance(start), n - 1);
      ShiftFront(start, n - 1);
      calc {
        Emitted(start, n + 1);
        [Phases[start]] + Emitted(Advance(start), n);
        [Phases[start]] + (Emitted(Advance(start), n - 1) + last);
        ([Phases[start]] + Emitted(Advance(start), n - 1)) + last;
        Emitted(start, n) + last;
      }
    }
  }

  /** The yielded sequence only ever holds members of `Phases`, and repeats with period 8. */
  lemma EmittedCycle(start: Cursor, n: nat)
    ensures forall k :: 0 <= k < n ==> Emitted(start, n)[k] in Phases
    ensures forall k :: 0 <= k && k + 8 < n ==> Emitted(start, n)[k + 8] == Emitted(start, n)[k]
  {
    forall k | 0 <= k < n
      ensures Emitted(start, n)[k] in Phases
    {
      EmittedAt(start, n, k);
    }
    forall k | 0 <= k && k + 8 < n
      ensures Emitted(start, n)[k + 8] == Emitted(start, n)[k]
    {
      EmittedAt(start, n, k);
      EmittedAt(start, n, k + 8);
      ShiftMod(start, k);
      ShiftMod(start, k + 8);
      assert (start + k + 8) % 8 == (start + k) % 8;
    }
  }

  // ---------------------------------------------------------------------------------------------
  // Wrap-around

  /** A wrapped coordinate is left alone by a second wrap. */
  lemma WrapIdempotent(v: real, wrap: real, extent: real)
    requires 0.0 <= wrap && 0.0 <= extent
    ensures WrapAxis(WrapAxis(v, wrap, extent), wrap, extent) == WrapAxis(v, wrap, extent)
  {
  }

  /** The far edge is exclusive of wrapping: exactly `wrap + extent` stays, anything beyond goes to 0. */
  lemma WrapThreshold(wrap: real, extent: real, v: real)
    requires 0.0 <= wrap && 0.0 <= extent && v > wrap + extent
    ensures WrapAxis(wrap + extent, wrap, extent) == wrap + extent
    ensures WrapAxis(v, wrap, extent) == 0.0
  {
  }

  // ---------------------------------------------------------------------------------------------
  // The scale envelope of a flight

  /** The envelope is symmetric about the middle of the flight. */
  lemma EnvelopeSymmetric(timeInFlight: int, timeRemaining: int)
    requires 0 <= timeRemaining <= timeInFlight && timeInFlight > 0
    ensures Envelope(timeInFlight, timeRemaining) == Envelope(timeInFlight, timeInFlight - timeRemaining)
  {
  }

  /** It reaches its peak of 1 exactly at the midpoint, and is 0 at both ends of [0, timeInFlight]:
      on the first frame of a flight, and at `timeRemaining = 0`, which no frame draws since the
      scale is computed before the counter goes down. */
  lemma EnvelopePeak(timeInFlight: int, timeRemaining: int)
    requires 0 <= timeRemaining <= timeInFlight && timeInFlight > 0
    ensures Envelope(timeInFlight, timeRemaining) == 1.0 <==> 2 * timeRemaining == timeInFlight
    ensures Envelope(timeInFlight, timeInFlight) == 0.0 && Envelope(timeInFlight, 0) == 0.0
  {
    var total, left := timeInFlight as real, timeRemaining as real;
    if total / 2.0 > left {
      QuotientBounds(left * 2.0, total);
    } else if 2 * timeRemaining != timeInFlight {
      assert left * 2.0 != total;
      assert (total - left) * 2.0 < total;
      QuotientBounds((total - left) * 2.0, total);
    } else {
      assert (total - left) * 2.0 == total;
      QuotientBounds((total - left) * 2.0, total);
    }
  }

  /** Each frame of a recorded flight draws the sprite at a scale between 1 and 2.5. */
  lemma SoaringScaleRange(sr: Soaring)
    requires ValidSoaring(sr)
    ensures 1.0 <= SpriteScale(Envelope(sr.timeInFlight, sr.timeRemaining)) <= 2.5
  {
  }

  // ---------------------------------------------------------------------------------------------
  // The pointer reaction

  /** Comparing the squared distance with 10000 is comparing the distance with 100. */
  lemma DistanceThreshold(squared: real, distance: real)
    requires 0.0 <= distance && distance * distance == squared
    ensures distance < 100.0 <==> squared < 10000.0
  {
    if distance >= 100.0 {
      assert distance * distance >= 100.0 * distance >= 10000.0;
    }
  }

  /** Near the pointer `chase` is set and each component is steered by the one-off thresholds;
      otherwise `chase` is cleared and the direction kept. */
  lemma ReactRule(heading: Heading, position: Point, pointer: Point)
    ensures var r := React(heading, position, pointer);
      && (r.chase <==> SquaredDistance(position, pointer) < 10000.0)
      && (r.chase ==>
            && (position.x - pointer.x < 1.0 ==> r.x == 1.0)
            && (position.x - pointer.x > 1.0 ==> r.x == -1.0)
            && (position.x - pointer.x == 1.0 ==> r.x == heading.x)
            && (position.y - pointer.y < 1.0 ==> r.y == 1.0)
            && (position.y - pointer.y > 1.0 ==> r.y == -1.0)
            && (position.y - pointer.y == 1.0 ==> r.y == heading.y))
      && (!r.chase ==> r.x == heading.x && r.y == heading.y)
  {
  }

  // ---------------------------------------------------------------------------------------------
  // One frame

  /** A resting frame counts the rest down by one and changes nothing else. */
  lemma RestingStep(c: Config, s: TogState, f: Frame)
    requires ValidState(s) && s.framesToSkip > 0
    ensures Stepped(c, s, f) == s.(framesToSkip := s.framesToSkip - 1)
  {
  }

  /** A frame of flight moves by the arc's step without wrapping, counts the arc down, and leaves
      heading, rest counter and generator alone. */
  lemma SoaringStep(c: Config, s: TogState, f: Frame)
    requires ValidState(s) && s.framesToSkip == 0 && s.soaring.Some?
    ensures var r, sr := Stepped(c, s, f), s.soaring.value;
      && r.position == Point(s.position.x + sr.remainingX, s.position.y + sr.remainingY)
      && r.soaring == (if sr.timeRemaining == 1 then None else Some(sr.(timeRemaining := sr.timeRemaining - 1)))
      && r.heading == s.heading && r.framesToSkip == 0 && r.cursor == s.cursor
      && 1.0 <= r.scale <= 2.5
  {
    SoaringScaleRange(s.soaring.value);
  }

  /** An ordinary frame: the generator advances; the heading and rest come from the pointer
      reaction, or from `reconsider` when the phase was 0, the roll hit and the pointer is far;
      the Tog moves by the displacement of the heading as it was after the reaction (a heading
      picked by `reconsider` only shows on later frames), and the new position lies within the
      wrap bounds. */
  lemma OrdinaryStep(c: Config, s: TogState, f: Frame)
    requires ValidState(s) && s.framesToSkip == 0 && s.soaring.None? && ValidDraws(f.draws)
    ensures var r := Stepped(c, s, f);
      var rerolled := Phases[s.cursor] == 0 && f.draws.roll < c.skipChance &&
                      SquaredDistance(s.position, f.pointer) >= 10000.0;
      && r.cursor == Advance(s.cursor) && r.soaring.None? && r.scale == 1.0
      && (rerolled ==>
            && 10 <= r.framesToSkip <= 40
            && r.heading == Heading(f.draws.heading.x, f.draws.heading.y, false)
            && -1.0 <= r.heading.x <= 1.0 && -1.0 <= r.heading.y <= 1.0)
      && (!rerolled ==> r.framesToSkip == 0 && r.heading == React(s.heading, s.position, f.pointer))
      && (var v := Velocity(c, React(s.heading, s.position, f.pointer), Phases[s.cursor]);
          r.position == Point(WrapAxis(s.position.x + v.x, c.xWrap, f.extent.x),
                              WrapAxis(s.position.y + v.y, c.yWrap, f.extent.y)))
      && (0.0 <= c.xWrap && 0.0 <= f.extent.x ==> -f.extent.x <= r.position.x <= c.xWrap + f.extent.x)
      && (0.0 <= c.yWrap && 0.0 <= f.extent.y ==> -f.extent.y <= r.position.y <= c.yWrap + f.extent.y)
  {
  }

  /** The position `getUpdatedPosition` computes when not soaring: the position part of
      `OrdinaryStep`, stated alone as the step the class's `GetUpdatedPosition` calls. */
  lemma MovedPosition(c: Config, s: TogState, f: Frame)
    requires ValidState(s) && s.soaring.None?
    ensures var v := Velocity(c, React(s.heading, s.position, f.pointer), Phases[s.cursor]);
      Moved(c, s, f).position ==
        Point(WrapAxis(s.position.x + v.x, c.xWrap, f.extent.x), WrapAxis(s.position.y + v.y, c.yWrap, f.extent.y))
  {
  }

  /** `reconsider` changes something only when the roll is under `skipChance` and the Tog is not
      chasing; then it sets the drawn rest (10 to 40 frames) and the drawn heading (components in
      [-1,1], no chase) and changes nothing else. */
  lemma ReconsiderRule(s: TogState, skipChance: real, d: Draws)
    requires ValidDraws(d)
    ensures var r := Reconsidered(s, skipChance, d);
      && (r != s ==> d.roll < skipChance && !s.heading.chase)
      && (d.roll < skipChance && !s.heading.chase ==>
            10 <= r.framesToSkip <= 40 && !r.heading.chase &&
            -1.0 <= r.heading.x <= 1.0 && -1.0 <= r.heading.y <= 1.0 &&
            r == s.(framesToSkip := 10 + d.skip, heading := Heading(d.heading.x, d.heading.y, false)))
  {
  }

  /** `getJumpOffset` reconsiders exactly when the phase under the cursor is 0. */
  lemma JumpedRule(s: TogState, skipChance: real, d: Draws)
    ensures Phases[s.cursor] != 0 ==> Jumped(s, skipChance, d) == s.(cursor := Advance(s.cursor))
    ensures Phases[s.cursor] == 0 ==>
      Jumped(s, skipChance, d) == Reconsidered(s.(cursor := Advance(s.cursor)), skipChance, d)
  {
  }

  // ---------------------------------------------------------------------------------------------
  // Flights

  /** `soar` during a flight changes nothing, so a second hover is ignored. */
  lemma LaunchedWhileSoaring(s: TogState, timeInFlight: int, destX: int, destY: int)
    requires timeInFlight > 0
    ensures s.soaring.Some? ==> Launched(s, timeInFlight, destX, destY) == s
    ensures var s' := Launched(s, timeInFlight, destX, destY);
      Launched(s', timeInFlight, destX, destY) == s'
  {
  }

  /** `soar` from the ground records a flight of `timeInFlight` frames and changes nothing else. */
  lemma LaunchedFromGround(s: TogState, timeInFlight: int, destX: int, destY: int)
    requires 30 <= timeInFlight <= 120 && s.soaring.None?
    ensures var r := Launched(s, timeInFlight, destX, destY);
      && r.soaring.Some? && ValidSoaring(r.soaring.value)
      && r.soaring.value.timeInFlight == timeInFlight == r.soaring.value.timeRemaining
      && r.(soaring := None) == s
  {
  }

  // ---------------------------------------------------------------------------------------------
  // Runs of frames

  /** Running two lists of frames one after the other is running their concatenation. */
  lemma {:induction false} RunAppend(c: Config, s: TogState, a: seq<Frame>, b: seq<Frame>)
    requires ValidState(s)
    ensures Run(c, s, a + b) == Run(c, Run(c, s, a), b)
    decreases |a|
  {
    if a == [] {
      assert a + b == b;
    } else {
      var next := Stepped(c, s, a[0]);
      assert (a + b)[0] == a[0] && (a + b)[1..] == a[1..] + b;
      RunAppend(c, next, a[1..], b);
      calc {
        Run(c, s, a + b);
        Run(c, next, a[1..] + b);
        Run(c, Run(c, next, a[1..]), b);
        Run(c, Run(c, s, a), b);
      }
    }
  }

  /** While resting, every frame counts down by exactly one and nothing else changes. */
  lemma {:induction false} RestThrough(c: Config, s: TogState, frames: seq<Frame>)
    requires ValidState(s) && |frames| <= s.framesToSkip
    ensures Run(c, s, frames) == s.(framesToSkip := s.framesToSkip - |frames|)
    decreases |frames|
  {
    if frames != [] {
      RestThrough(c, s.(framesToSkip := s.framesToSkip - 1), frames[1..]);
    }
  }

  /** The point `k` steps of `step` away from `p`. */
  function Flown(p: Point, step: Point, k: nat): Point {
    Point(p.x + k as real * step.x, p.y + k as real * step.y)
  }

  /** One step and then `k` more is `k + 1` steps. */
  lemma FlownStep(p: Point, step: Point, k: nat)
    ensures Flown(Point(p.x + step.x, p.y + step.y), step, k) == Flown(p, step, k + 1)
  {
    assert p.x + step.x + k as real * step.x == p.x + (k + 1) as real * step.x;
    assert p.y + step.y + k as real * step.y == p.y + (k + 1) as real * step.y;
  }

  /** The whole state after one frame of flight. */
  lemma FlightStep(c: Config, s: TogState, f: Frame)
    requires ValidState(s) && s.framesToSkip == 0 && s.soaring.Some?
    ensures var sr := s.soaring.value;
      Stepped(c, s, f) == s.(position := Point(s.position.x + sr.remainingX, s.position.y + sr.remainingY),
                             scale := SpriteScale(Envelope(sr.timeInFlight, sr.timeRemaining)),
                             soaring := CountDown(sr))
  {
  }

  /** After `k` frames of a flight with at least `k` frames left, the Tog has moved `k` arc steps,
      has `k` fewer frames to go (the arc is cleared when none are left), was last drawn at the
      envelope's scale for the frame it just flew, and nothing else changed. */
  lemma {:induction false} FlightProgress(c: Config, s: TogState, frames: seq<Frame>)
    requires ValidState(s) && s.framesToSkip == 0 && s.soaring.Some?
    requires |frames| <= s.soaring.value.timeRemaining
    ensures var sr, k := s.soaring.value, |frames|;
      Run(c, s, frames) == s.(
        position := Flown(s.position, Point(sr.remainingX, sr.remainingY), k),
        soaring := if k == sr.timeRemaining then None else Some(sr.(timeRemaining := sr.timeRemaining - k)),
        scale := if k == 0 then s.scale else SpriteScale(Envelope(sr.timeInFlight, sr.timeRemaining - k + 1)))
    decreases |frames|
  {
    var sr := s.soaring.value;
    var step := Point(sr.remainingX, sr.remainingY);
    if frames == [] {
      assert Flown(s.position, step, 0) == s.position;
    } else {
      var moved := Point(s.position.x + sr.remainingX, s.position.y + sr.remainingY);
      var next := s.(position := moved, scale := SpriteScale(Envelope(sr.timeInFlight, sr.timeRemaining)),
                     soaring := CountDown(sr));
      FlightStep(c, s, frames[0]);
      assert Run(c, s, frames) == Run(c, next, frames[1..]);
      FlownStep(s.position, step, |frames| - 1);
      if sr.timeRemaining > 1 {
        var k := |frames|;
        var sr1 := sr.(timeRemaining := sr.timeRemaining - 1);
        assert next.soaring == Some(sr1);
        FlightProgress(c, next, frames[1..]);
        assert Point(sr1.remainingX, sr1.remainingY) == step;
        assert (if k - 1 == sr1.timeRemaining then None else Some(sr1.(timeRemaining := sr1.timeRemaining - (k - 1))))
            == (if k == sr.timeRemaining then None else Some(sr.(timeRemaining := sr.timeRemaining - k)));
        assert (if k - 1 == 0 then next.scale else SpriteScale(Envelope(sr1.timeInFlight, sr1.timeRemaining - (k - 1) + 1)))
            == SpriteScale(Envelope(sr.timeInFlight, sr.timeRemaining - k + 1));
      } else {
        assert frames[1..] == [];
        assert Flown(moved, step, 0) == moved;
      }
    }
  }

  /** A flight started with `soar` lasts exactly `timeInFlight` moving frames, after any rest that
      was under way: until then the arc is still recorded, and after them the Tog stands exactly
      at the destination, its arc cleared and not resting, so that the next frame is an ordinary
      one, with its heading and generator as they were. */
  lemma FlightLands(c: Config, s: TogState, timeInFlight: int, destX: int, destY: int, frames: seq<Frame>)
    requires ValidState(s) && s.soaring.None? && 30 <= timeInFlight <= 120
    requires |frames| == s.framesToSkip + timeInFlight
    ensures var launched := Launched(s, timeInFlight, destX, destY);
      && (forall i :: 0 <= i < |frames| ==> Run(c, launched, frames[..i]).soaring.Some?)
      && Run(c, launched, frames).position == Point(destX as real, destY as real)
      && Run(c, launched, frames).soaring.None? && Run(c, launched, frames).framesToSkip == 0
      && Run(c, launched, frames).heading == s.heading
      && Run(c, launched, frames).cursor == s.cursor
  {
    var launched := Launched(s, timeInFlight, destX, destY);
    var rest := s.framesToSkip;
    LaunchedFromGround(s, timeInFlight, destX, destY);
    RestThrough(c, launched, frames[..rest]);
    var flying := launched.(framesToSkip := 0);
    forall i | 0 <= i < |frames|
      ensures Run(c, launched, frames[..i]).soaring.Some?
    {
      if i < rest {
        RestThrough(c, launched, frames[..i]);
      } else {
        assert frames[..i] == frames[..rest] + frames[rest..i];
        RunAppend(c, launched, frames[..rest], frames[rest..i]);
        FlightProgress(c, flying, frames[rest..i]);
      }
    }
    assert frames == frames[..rest] + frames[rest..];
    RunAppend(c, launched, frames[..rest], frames[rest..]);
    FlightProgress(c, flying, frames[rest..]);
    var t := timeInFlight as real;
    assert s.position.x + t * ((destX as real - s.position.x) / t) == destX as real;
    assert s.position.y + t * ((destY as real - s.position.y) / t) == destY as real;
  }

  /** Teleporting lands on a whole-numbered point of the world `[0, xWrap) x [0, yWrap)`. */
  lemma TeleportedInWorld(s: TogState, xWrap: real, yWrap: real, rx: real, ry: real)
    requires 0.0 < xWrap && 0.0 < yWrap && 0.0 <= rx < 1.0 && 0.0 <= ry < 1.0
    ensures var p := Teleported(s, xWrap, yWrap, rx, ry).position;
      0.0 <= p.x < xWrap && 0.0 <= p.y < yWrap
  {
    assert rx * xWrap < xWrap;
    assert ry * yWrap < yWrap;
  }
}
