/**
 * Teleop command codes. A teleop goal carries its code as an unsigned 8-bit
 * integer (the goal's `code` field is filled by a cast of the code to uint8).
 */
module Codes {
  import opened Wrappers

  type byte = x: int | 0 <= x < 256

  /** The command codes the console sends on the teleop channel. */
  datatype Code =
    | StopDrivebase | Forward | Backward | Left | Right
    | ResetStarting | ResetDumping | Dump | Dig
    | LowerArmExtend | LowerArmRetract
    | UpperArmExtend | UpperArmRetract
    | ScoopExtend | ScoopRetract
    | RaiseArm | Clockwise | Counterclockwise
    | DrivingPosition

  /** The drivebase motions, the codes a held key or a held button keeps alive. */
  const DriveCodes: set<Code> := {Forward, Backward, Left, Right}

  /** The integer tag a code travels as. */
  function Tag(c: Code): byte
  {
    match c
    case StopDrivebase => 0
    case Forward => 1
    case Backward => 2
    case Left => 3
    case Right => 4
    case ResetStarting => 5
    case ResetDumping => 6
    case Dump => 7
    case Dig => 8
    case LowerArmExtend => 9
    case LowerArmRetract => 10
    case UpperArmExtend => 11
    case UpperArmRetract => 12
    case ScoopExtend => 13
    case ScoopRetract => 14
    case RaiseArm => 15
    case Clockwise => 16
    case Counterclockwise => 17
    case DrivingPosition => 18
  }

  /** The code a tag stands for, if any: the receiving side's view of a goal. */
  function FromTag(t: byte): (r: Option<Code>)
    ensures r.Some? ==> Tag(r.value) == t
    ensures r.None? <==> t >= 19
  {
    if t == 0 then Some(StopDrivebase)
    else if t == 1 then Some(Forward)
    else if t == 2 then Some(Backward)
    else if t == 3 then Some(Left)
    else if t == 4 then Some(Right)
    else if t == 5 then Some(ResetStarting)
    else if t == 6 then Some(ResetDumping)
    else if t == 7 then Some(Dump)
    else if t == 8 then Some(Dig)
    else if t == 9 then Some(LowerArmExtend)
    else if t == 10 then Some(LowerArmRetract)
    else if t == 11 then Some(UpperArmExtend)
    else if t == 12 then Some(UpperArmRetract)
    else if t == 13 then Some(ScoopExtend)
    else if t == 14 then Some(ScoopRetract)
    else if t == 15 then Some(RaiseArm)
    else if t == 16 then Some(Clockwise)
    else if t == 17 then Some(Counterclockwise)
    else if t == 18 then Some(DrivingPosition)
    else None
  }

  /** Every code survives the trip through its tag. */
  lemma TagRoundTrip(c: Code)
    ensures FromTag(Tag(c)) == Some(c)
  {
  }

  /** Distinct codes travel as distinct tags. */
  lemma TagInjective(c: Code, d: Code)
    requires Tag(c) == Tag(d)
    ensures c == d
  {
    TagRoundTrip(c);
    TagRoundTrip(d);
  }
}
