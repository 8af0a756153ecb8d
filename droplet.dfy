/**
  The droplet animation of the stalagmometer page: a drop hangs from the
  tube, grows downwards half a pixel per frame until it reaches the
  detachment line, then detaches (falls faster while shrinking by a tenth of
  a pixel per frame) and, once its radius is gone, starts over at the tube
  mouth.

  The arithmetic is on exact reals, so the cycle is exactly 680 frames long:
  600 growing frames, then 80 detaching frames, the last of which resets.
 */
module DropletAnimation {

  /** Where a drop starts: the tube mouth, at full size, not detaching. */
  const StartY: real := 50.0
  const StartRadius: real := 8.0
  /** Pixels per frame while growing. */
  const DropSpeed: real := 0.5
  /** The detachment line. */
  const MaxDropY: real := 350.0
  /** Pixels the radius loses per detaching frame. */
  const ShrinkStep: real := 0.1

  /** Frames in one growth-detach-reset cycle, and in its growing part. */
  const GrowFrames: nat := 600
  const CycleLength: nat := 680

  /** The three module-level variables the animation updates. */
  datatype DropState = DropState(y: real, radius: real, detaching: bool)

  const Initial: DropState := DropState(StartY, StartRadius, false)

  /** The movement block of one frame: grow, or detach and shrink. */
  function Move(s: DropState): DropState
  {
    if s.y < MaxDropY && !s.detaching then
      s.(y := s.y + DropSpeed)
    else
      DropState(s.y + DropSpeed * 1.5, s.radius - ShrinkStep, true)
  }

  /** The reset block of one frame: a drop with no radius left starts over. */
  function ResetIfGone(s: DropState): DropState
  {
    if s.radius <= 0.0 then Initial else s
  }

  /** One animation frame: movement, then the reset check. */
  function Step(s: DropState): DropState
  {
    ResetIfGone(Move(s))
  }

  /** The state after n frames from s. */
  function Run(s: DropState, n: nat): DropState
  {
    if n == 0 then s else Step(Run(s, n - 1))
  }

  /** The state k frames into a cycle that starts at Initial. */
  function Phase(k: nat): DropState
    requires k < CycleLength
  {
    if k <= GrowFrames then
      DropState(StartY + k as real * DropSpeed, StartRadius, false)
    else
      DropState(MaxDropY + (k - GrowFrames) as real * (DropSpeed * 1.5),
                StartRadius - (k - GrowFrames) as real * ShrinkStep, true)
  }

  /** The position in the cycle one frame later. */
  function NextFrame(k: nat): (k': nat)
    requires k < CycleLength
    ensures k' < CycleLength
    ensures k' == (k + 1) % CycleLength
  {
    if k + 1 == CycleLength then 0 else k + 1
  }

  /**
    What holds of every state the animation reaches: a drop that is not
    detaching is full-size and between the tube mouth and the detachment
    line; a detaching drop is past the line with a radius strictly between
    zero and full size.
   */
  ghost predicate Inv(s: DropState)
  {
    && (!s.detaching ==> s.radius == StartRadius && StartY <= s.y <= MaxDropY)
    && (s.detaching ==> s.y > MaxDropY && 0.0 < s.radius < StartRadius)
  }

  /** A growing frame moves the drop down by exactly DropSpeed and changes nothing else. */
  lemma GrowingTick(s: DropState)
    requires s.y < MaxDropY && !s.detaching && s.radius > 0.0
    ensures Step(s) == DropState(s.y + 0.5, s.radius, false)
  {
  }

  /**
    Any other frame marks the drop detaching, takes exactly 0.1 off its
    radius and moves it down by exactly 0.75, unless that empties the radius,
    in which case the drop starts over.
   */
  lemma DetachingTick(s: DropState)
    requires !(s.y < MaxDropY && !s.detaching)
    ensures s.radius - 0.1 > 0.0 ==> Step(s) == DropState(s.y + 0.75, s.radius - 0.1, true)
    ensures s.radius - 0.1 <= 0.0 ==> Step(s) == Initial
  {
  }

  /** Whenever a frame ends with no radius, the state is exactly the initial one. */
  lemma ResetRestoresInitial(s: DropState)
    requires Move(s).radius <= 0.0
    ensures Step(s) == DropState(50.0, 8.0, false)
  {
  }

  /**
    Once detaching, a drop stays detaching until the reset: the only frame
    that clears the flag is the one that restores the initial state.
   */
  lemma DetachingPersists(s: DropState)
    requires s.detaching
    ensures Step(s).detaching <==> s.radius - ShrinkStep > 0.0
    ensures !Step(s).detaching ==> Step(s) == Initial
  {
  }

  /** No frame clears the flag except by a reset, whatever the state. */
  lemma OnlyResetClearsDetaching(s: DropState)
    requires !Step(s).detaching
    ensures Step(s) == Initial || (!s.detaching && s.y < MaxDropY)
  {
  }

  /** One frame advances the closed form of the cycle by one position. */
  lemma StepPhase(k: nat)
    requires k < CycleLength
    ensures Step(Phase(k)) == Phase(NextFrame(k))
  {
  }

  /** Every state of the cycle satisfies the invariant. */
  lemma PhaseInv(k: nat)
    requires k < CycleLength
    ensures Inv(Phase(k))
  {
  }

  /** Counting frames modulo the cycle length agrees with NextFrame. */
  lemma ModSucc(n: nat)
    ensures NextFrame(n % CycleLength) == (n + 1) % CycleLength
  {
  }

  /** Adding a whole cycle does not change the position in the cycle. */
  lemma ModShift(n: nat)
    ensures (n + CycleLength) % CycleLength == n % CycleLength
  {
  }

  /** Starting from Initial, n frames land on position n mod 680 of the cycle. */
  lemma {:induction false} RunPhase(n: nat)
    ensures Run(Initial, n) == Phase(n % CycleLength)
  {
    if n > 0 {
      RunPhase(n - 1);
      StepPhase((n - 1) % CycleLength);
      ModSucc(n - 1);
    }
  }

  /** Every state reached from Initial satisfies the invariant. */
  lemma {:induction false} ReachableInv(n: nat)
    ensures Inv(Run(Initial, n))
  {
    RunPhase(n);
    PhaseInv(n % CycleLength);
  }

  /**
    The cycle: 600 growing frames bring the drop to the detachment line at
    full size, and 80 detaching frames later the initial state is back.
   */
  lemma {:induction false} FullCycle()
    ensures Run(Initial, GrowFrames) == DropState(350.0, 8.0, false)
    ensures Run(Initial, CycleLength) == Initial
  {
    RunPhase(GrowFrames);
    RunPhase(CycleLength);
  }

  /** The initial state recurs exactly on the multiples of 680 frames. */
  lemma {:induction false} InitialRecurs(n: nat)
    ensures Run(Initial, n) == Initial <==> n % CycleLength == 0
  {
    RunPhase(n);
    if n % CycleLength != 0 {
      var k := n % CycleLength;
      if k <= GrowFrames {
        assert Phase(k).y > StartY;
      } else {
        assert Phase(k).detaching;
      }
    }
  }

  /** No drift: the animation repeats itself every 680 frames. */
  lemma {:induction false} Periodic(n: nat)
    ensures Run(Initial, n + CycleLength) == Run(Initial, n)
  {
    RunPhase(n);
    RunPhase(n + CycleLength);
    ModShift(n);
  }

  /** Vertical stretch of the drawn ellipse: 1.4 when stretching, 1 otherwise. */
  function StretchFactor(isStretching: bool): real
  {
    if isStretching then 1.4 else 1.0
  }

  /**
    Vertical radius of the drawn drop. The stretch flag passed to the
    drawing is the negation of the detaching flag.
   */
  function DrawnVerticalRadius(s: DropState): real
  {
    s.radius * StretchFactor(!s.detaching)
  }

  /**
    In every reachable state the drawn drop is stretched to 11.2 pixels while
    it grows and is round while it detaches.
   */
  lemma {:induction false} DrawnShape(n: nat)
    ensures var s := Run(Initial, n);
      && (!s.detaching ==> DrawnVerticalRadius(s) == 11.2)
      && (s.detaching ==> DrawnVerticalRadius(s) == s.radius > 0.0)
  {
    ReachableInv(n);
  }

  /** The droplet as the page holds it: three variables updated every frame. */
  class Droplet {
    var y: real
    var radius: real
    var detaching: bool
    /** Frames since the last reset; bookkeeping for the proof only. */
    ghost var frame: nat

    function State(): DropState
      reads this
    {
      DropState(y, radius, detaching)
    }

    ghost predicate Valid()
      reads this
    {
      frame < CycleLength && State() == Phase(frame)
    }

    constructor ()
      ensures Valid() && frame == 0
      ensures State() == DropState(50.0, 8.0, false)
    {
      y, radius, detaching := StartY, StartRadius, false;
      frame := 0;
    }

    /** One animation frame's update of the droplet (drawing left out). */
    method Tick()
      requires Valid()
      modifies this
      ensures Valid() && frame == NextFrame(old(frame))
      ensures State() == Step(old(State()))
      ensures Inv(State())
    {
      if y < MaxDropY && !detaching {
        y := y + DropSpeed;
      } else {
        detaching := true;
        radius := radius - ShrinkStep;
        y := y + DropSpeed * 1.5;
      }
      if radius <= 0.0 {
        y, radius, detaching := StartY, StartRadius, false;
      }
      StepPhase(frame);
      frame := NextFrame(frame);
      PhaseInv(frame);
    }
  }
}
