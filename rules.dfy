/**
 * The fixed thresholds and wheel speeds of the controller (the `FuzzyRules`
 * holder in main.py), and the closed set of driving actions.
 */
module FuzzyRules {

  /** A zone whose danger value is below this is "very close" (sonar distance). */
  const VeryClose: real := 0.8
  /** A zone whose danger value is below this is "close" (sonar distance). */
  const Close: real := 0.5
  /** Declared by the source but referenced by no rule. */
  const Safe: real := 0.3

  const NormalSpeed: real := 1.0
  const TurnSpeed: real := 0.6
  const SlowSpeed: real := 0.4

  /** The discrete steering decision of one control cycle. */
  datatype Action = Advance | TurnLeft | TurnRight | EmergencyTurn

  /** A command for the two wheels of the differential drive. */
  datatype WheelSpeeds = WheelSpeeds(left: real, right: real)

}
