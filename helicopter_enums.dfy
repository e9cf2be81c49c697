/**
 * The two dense enumerations of the helicopter actor: the eight flight
 * controls (indices into the boolean control array) and the eight parts
 * (indices into the part tables).
 */
module HelicopterEnums {

  const CONTROL_COUNT: nat := 8
  const PART_COUNT: nat := 8

  datatype Control =
    PitchDown | PitchUp | YawLeft | YawRight | RollLeft | RollRight | ThrottleUp | ThrottleDown

  datatype Part =
    Body | Rotor | Slides | TailRotor | Windows | Strobe | Spotlight | Lights

  /** The value the enumerator has in eControl. */
  function ControlIndex(c: Control): (i: nat)
    ensures i < CONTROL_COUNT
  {
    match c
    case PitchDown => 0
    case PitchUp => 1
    case YawLeft => 2
    case YawRight => 3
    case RollLeft => 4
    case RollRight => 5
    case ThrottleUp => 6
    case ThrottleDown => 7
  }

  /** The eControl enumerator with value `i`. */
  function ControlAt(i: nat): (c: Control)
    requires i < CONTROL_COUNT
    ensures ControlIndex(c) == i
  {
    [PitchDown, PitchUp, YawLeft, YawRight, RollLeft, RollRight, ThrottleUp, ThrottleDown][i]
  }

  /** The value the enumerator has in ePart. */
  function PartIndex(p: Part): (i: nat)
    ensures i < PART_COUNT
  {
    match p
    case Body => 0
    case Rotor => 1
    case Slides => 2
    case TailRotor => 3
    case Windows => 4
    case Strobe => 5
    case Spotlight => 6
    case Lights => 7
  }

  /** The ePart enumerator with value `i`. */
  function PartAt(i: nat): (p: Part)
    requires i < PART_COUNT
    ensures PartIndex(p) == i
  {
    [Body, Rotor, Slides, TailRotor, Windows, Strobe, Spotlight, Lights][i]
  }

  /** eControl numbers its eight enumerators densely and distinctly. */
  lemma ControlIndexIsBijective()
    ensures forall c, d :: ControlIndex(c) == ControlIndex(d) ==> c == d
    ensures forall i :: 0 <= i < CONTROL_COUNT ==> ControlIndex(ControlAt(i)) == i
  {
  }

  /** ePart numbers its eight enumerators densely and distinctly. */
  lemma PartIndexIsBijective()
    ensures forall p, q :: PartIndex(p) == PartIndex(q) ==> p == q
    ensures forall i :: 0 <= i < PART_COUNT ==> PartIndex(PartAt(i)) == i
  {
  }

  /** The declaration order puts SLIDES before TAIL_ROTOR. */
  lemma SlidesPrecedeTailRotor()
    ensures PartIndex(Slides) == 2 && PartIndex(TailRotor) == 3
    ensures PartIndex(Rotor) == 1
  {
  }
}
