/**
 One Tog as an object whose fields each frame's `step` updates in place. Every method states
 its new state as a function of the old one, through the stage functions of TogModel.
 */
module TogEntity {
  import opened TogModel
  import TogProperties

  /** A range `_.random(bound, false)` can return: between 0 and `bound`, either way round. */
  predicate InRange(v: real, bound: real) {
    if 0.0 <= bound then 0.0 <= v <= bound else bound <= v <= 0.0
  }

  class Tog {
    var position: Point
    var heading: Heading
    var framesToSkip: nat
    var soaring: Option<Soaring>
    /** The position of the `jumpPhase` generator in its endless loop over `Phases`. */
    var cursor: Cursor
    /** The scale last given to the sprite. */
    var scale: real
    /** Every value the `jumpPhase` generator has yielded so far, oldest first. */
    ghost var yielded: seq<int>

    const color: int
    const xWrap: real
    const yWrap: real
    const skipChance: real
    const inclination: Point
    const pep: real

    function State(): TogState
      reads this
    {
      TogState(position, heading, framesToSkip, cursor, soaring, scale)
    }

    function Params(): Config
      reads this
    {
      Config(xWrap, yWrap, skipChance, inclination, pep)
    }

    /** The object invariant; its last two conjuncts say that the generator has so far yielded
        exactly the periodic sequence, and that its cursor agrees with how far it got. */
    ghost predicate Valid()
      reads this
    {
      ValidConfig(Params()) && ValidState(State()) &&
      yielded == Emitted(0, |yielded|) && cursor == Shift(0, |yielded|)
    }

    /** The random draws of construction are parameters: the first heading, the color, the skip
        chance, the inclination and the pep. */
    constructor (x: real, y: real, xWrap: real, yWrap: real, firstHeading: Point, color: int,
                 skipChance: real, inclination: Point, pep: real)
      requires -1.0 <= firstHeading.x <= 1.0 && -1.0 <= firstHeading.y <= 1.0
      requires 0 <= color <= 0xFF_FFFF
      requires ValidConfig(Config(xWrap, yWrap, skipChance, inclination, pep))
      ensures Valid()
      ensures State() == TogState(Point(x, y), Heading(firstHeading.x, firstHeading.y, false), 0, 0, None, 1.0)
      ensures Params() == Config(xWrap, yWrap, skipChance, inclination, pep) && this.color == color
      ensures yielded == []
    {
      position := Point(x, y);
      heading := Heading(firstHeading.x, firstHeading.y, false);
      this.xWrap := xWrap;
      this.yWrap := yWrap;
      this.color := color;
      this.skipChance := skipChance;
      this.inclination := inclination;
      this.pep := pep;
      framesToSkip := 0;
      soaring := None;
      cursor := 0;
      scale := 1.0;
      yielded := [];
    }

    /** One animation frame; `mousePosition` and `extent` are read from the renderer, `d` from the
        random source. */
    method Step(mousePosition: Point, extent: Point, d: Draws)
      requires Valid() && ValidDraws(d)
      modifies this
      ensures Valid()
      ensures State() == Stepped(Params(), old(State()), Frame(mousePosition, extent, d))
      ensures yielded == old(yielded) + (if old(framesToSkip) == 0 && old(soaring).None? then [Phases[old(cursor)]] else [])
    {
      if framesToSkip > 0 {
        framesToSkip := framesToSkip - 1;
        return;
      }
      var newPosition := GetUpdatedPosition(mousePosition, extent, d);
      Move(newPosition);
    }

    method Move(newPosition: Point)
      modifies this`position
      ensures position == newPosition
    {
      position := newPosition;
    }

    /** A pointer-hover: starts a flight of `timeInFlight` frames to `(destX, destY)` unless one is
        in progress. */
    method Soar(timeInFlight: int, destX: int, destY: int)
      requires Valid()
      requires 30 <= timeInFlight <= 120 && InRange(destX as real, xWrap) && InRange(destY as real, yWrap)
      modifies this`soaring
      ensures Valid()
      ensures State() == Launched(old(State()), timeInFlight, destX, destY)
    {
      if soaring.None? {
        var t := timeInFlight as real;
        soaring := Some(Soaring((destX as real - position.x) / t, (destY as real - position.y) / t,
                                timeInFlight, timeInFlight));
      }
    }

    /** Jumps to a random point of the world; `rx` and `ry` are the two uniform draws. */
    method Teleport(rx: real, ry: real)
      requires Valid() && 0.0 <= rx < 1.0 && 0.0 <= ry < 1.0
      modifies this`position
      ensures Valid()
      ensures State() == Teleported(old(State()), xWrap, yWrap, rx, ry)
    {
      var newX := (rx * xWrap).Floor as real;
      var newY := (ry * yWrap).Floor as real;
      Move(Point(newX, newY));
    }

    /** The position of a non-resting frame. Soaring moves by the arc's step with no wrap and sets the
        sprite's scale from the envelope; otherwise the heading reacts to the pointer, the bobbing
        offset is subtracted vertically and the result is wrapped. */
    method GetUpdatedPosition(mousePosition: Point, extent: Point, d: Draws) returns (p: Point)
      requires Valid() && ValidDraws(d)
      modifies this
      ensures Valid()
      ensures p == Moved(Params(), old(State()), Frame(mousePosition, extent, d)).position
      ensures State() == Moved(Params(), old(State()), Frame(mousePosition, extent, d)).(position := old(position))
      ensures yielded == old(yielded) + (if old(soaring).None? then [Phases[old(cursor)]] else [])
    {
      var x, y := position.x, position.y;
      ghost var before := State();
      ghost var frame := Frame(mousePosition, extent, d);

      if soaring.Some? {
        var sr := soaring.value;
        var soaringPosition := Point(x + sr.remainingX, y + sr.remainingY);
        scale := SpriteScale(Envelope(sr.timeInFlight, sr.timeRemaining));
        sr := sr.(timeRemaining := sr.timeRemaining - 1);
        soaring := Some(sr);
        if sr.timeRemaining == 0 {
          soaring := None;
        }
        assert soaring == CountDown(before.soaring.value);
        return soaringPosition;
      }
      scale := 1.0;

      var h := DetermineNewHeading(position, mousePosition);
      var offset := GetJumpOffset(d);
      var delta := Velocity(Params(), h, offset);

      var newX, newY := CheckWrap(x + delta.x, y + delta.y, extent);
      p := Point(newX, newY);
      TogProperties.MovedPosition(Params(), before, frame);
    }

    /** Per-axis wrap-around at the world's edges, `extent` being the sprite's width and height. */
    method CheckWrap(newX: real, newY: real, extent: Point) returns (wrappedX: real, wrappedY: real)
      ensures wrappedX == WrapAxis(newX, xWrap, extent.x) && wrappedY == WrapAxis(newY, yWrap, extent.y)
      ensures 0.0 <= xWrap && 0.0 <= extent.x ==> -extent.x <= wrappedX <= xWrap + extent.x
      ensures 0.0 <= yWrap && 0.0 <= extent.y ==> -extent.y <= wrappedY <= yWrap + extent.y
    {
      wrappedX, wrappedY := newX, newY;
      if newX > xWrap + extent.x {
        wrappedX := 0.0;
      } else if newX < 0.0 - extent.x {
        wrappedX := xWrap - extent.x;
      }
      if newY > yWrap + extent.y {
        wrappedY := 0.0;
      } else if newY < 0.0 - extent.y {
        wrappedY := yWrap - extent.y;
      }
    }

    /** The pointer reaction, applied to this object's own heading, which it also returns. */
    method DetermineNewHeading(currentPosition: Point, mousePosition: Point) returns (h: Heading)
      modifies this`heading
      ensures heading == React(old(heading), currentPosition, mousePosition) && h == heading
    {
      var x, y := currentPosition.x, currentPosition.y;
      var dx, dy := heading.x, heading.y;
      var dMouseX := x - mousePosition.x;
      var dMouseY := y - mousePosition.y;
      var squaredDistance := dMouseX * dMouseX + dMouseY * dMouseY;

      if squaredDistance < 10000.0 {
        if dMouseX < 1.0 {
          dx := 1.0;
        } else if dMouseX > 1.0 {
          dx := -1.0;
        }
        if dMouseY < 1.0 {
          dy := 1.0;
        } else if dMouseY > 1.0 {
          dy := -1.0;
        }
        heading := Heading(dx, dy, true);
      } else {
        heading := heading.(chase := false);
      }
      h := heading;
    }

    /** Takes the next phase from the generator; a phase of 0 gives `reconsider` its chance. */
    method GetJumpOffset(d: Draws) returns (offset: int)
      requires Valid() && ValidDraws(d)
      modifies this`cursor, this`yielded, this`heading, this`framesToSkip
      ensures Valid()
      ensures offset == Phases[old(cursor)] && yielded == old(yielded) + [offset]
      ensures State() == Jumped(old(State()), skipChance, d)
    {
      var jumpOffset := NextPhase();
      if jumpOffset != 0 {
        return jumpOffset;
      } else {
        Reconsider(d);
      }
      offset := 0;
    }

    /** With probability `skipChance`, unless chasing: a new random heading and a rest. */
    method Reconsider(d: Draws)
      requires ValidDraws(d)
      modifies this`heading, this`framesToSkip
      ensures State() == Reconsidered(old(State()), skipChance, d)
    {
      var shouldReconsider := d.roll < skipChance;
      if shouldReconsider && !heading.chase {
        framesToSkip := 10 + d.skip;
        heading := Heading(d.heading.x, d.heading.y, false);
      }
    }

    /** One `next()` of the `jumpPhase` generator. */
    method NextPhase() returns (phase: int)
      requires Valid()
      modifies this`cursor, this`yielded
      ensures Valid()
      ensures phase == Phases[old(cursor)] && cursor == Advance(old(cursor))
      ensures yielded == old(yielded) + [phase]
    {
      phase := Phases[cursor];
      cursor := (cursor + 1) % 8;
      TogProperties.EmittedSnoc(0, |yielded|);
      yielded := yielded + [phase];
    }
  }
}
