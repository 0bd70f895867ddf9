/**
 * `FuzzyController`: the threshold rules that turn a danger triple into an
 * action, the action-to-speed table, and their composition with the zone
 * aggregation. Despite the name there is no fuzzy inference: every rule is a
 * strict comparison against a fixed threshold.
 */
module FuzzyController {
  import opened Wrappers
  import opened FuzzyRules
  import opened SensorReader

  /**
   * `evaluate_situation`: frontal danger first, then left, then right;
   * otherwise advance. Comparisons are strict, so a value equal to a
   * threshold does not trigger its rule.
   */
  function EvaluateSituation(left: real, center: real, right: real): (a: Action)
    ensures a == EmergencyTurn <==> center < VeryClose
    ensures a == TurnRight <==> center >= VeryClose && left < Close
    ensures a == TurnLeft <==> center >= VeryClose && left >= Close && right < Close
    ensures a == Advance <==> center >= VeryClose && left >= Close && right >= Close
  {
    if center < VeryClose then EmergencyTurn
    else if left < Close then TurnRight
    else if right < Close then TurnLeft
    else Advance
  }

  /**
   * `get_wheel_speeds`: the fixed table, total over the closed action set.
   * The robot reverses its left wheel only in an emergency, turns towards
   * the slower wheel's side, and never exceeds the normal speed.
   */
  function GetWheelSpeeds(a: Action): (s: WheelSpeeds)
    ensures -NormalSpeed <= s.left <= NormalSpeed && -NormalSpeed <= s.right <= NormalSpeed
    ensures s.left < 0.0 <==> a == EmergencyTurn
    ensures s.right > 0.0
    ensures s.left == s.right <==> a == Advance
    ensures s.left < s.right <==> a == TurnLeft || a == EmergencyTurn
    ensures s.left > s.right <==> a == TurnRight
  {
    match a
    case Advance => WheelSpeeds(NormalSpeed, NormalSpeed)
    case TurnLeft => WheelSpeeds(SlowSpeed, TurnSpeed)
    case TurnRight => WheelSpeeds(TurnSpeed, SlowSpeed)
    case EmergencyTurn => WheelSpeeds(-SlowSpeed, TurnSpeed)
  }

  /** No two actions share a speed pair: the command identifies the action. */
  lemma WheelSpeedsInjective(a: Action, b: Action)
    requires GetWheelSpeeds(a) == GetWheelSpeeds(b)
    ensures a == b
  {
  }

  /**
   * `compute_movement`: aggregation, rule evaluation and table lookup in
   * sequence. It raises exactly when aggregation does, and every command it
   * produces is one of the four table entries.
   */
  function ComputeMovement(readings: seq<real>): (r: Result<WheelSpeeds>)
    ensures r.Ok? <==> |readings| >= 7
    ensures r.Ok? ==> exists a :: r.value == GetWheelSpeeds(a)
  {
    var d :- GetDangerZones(readings);
    var action := EvaluateSituation(d.left, d.center, d.right);
    Ok(GetWheelSpeeds(action))
  }

  // ---------------------------------------------------------------------
  // Reference definition: a first-match-wins decision table.
  // ---------------------------------------------------------------------

  datatype Zone = LeftZone | CenterZone | RightZone

  function Level(d: Danger, z: Zone): real {
    match z
    case LeftZone => d.left
    case CenterZone => d.center
    case RightZone => d.right
  }

  /** A rule fires when its zone's danger value is strictly below its threshold. */
  datatype Rule = Rule(zone: Zone, threshold: real, action: Action)

  predicate Fires(rule: Rule, d: Danger) {
    Level(d, rule.zone) < rule.threshold
  }

  /** The action of the first rule that fires, or the default when none does. */
  function FirstMatch(rules: seq<Rule>, d: Danger, default: Action): Action {
    if rules == [] then default
    else if Fires(rules[0], d) then rules[0].action
    else FirstMatch(rules[1..], d, default)
  }

  /** The table picks rule `k` when it fires and no earlier rule does. */
  lemma {:induction false} FirstMatchPicksFirstFiring(rules: seq<Rule>, d: Danger, default: Action, k: nat)
    requires k < |rules| && Fires(rules[k], d)
    requires forall j :: 0 <= j < k ==> !Fires(rules[j], d)
    ensures FirstMatch(rules, d, default) == rules[k].action
  {
    if k > 0 {
      assert !Fires(rules[0], d);
      FirstMatchPicksFirstFiring(rules[1..], d, default, k - 1);
    }
  }

  /** When no rule fires the table yields its default. */
  lemma {:induction false} FirstMatchDefault(rules: seq<Rule>, d: Danger, default: Action)
    requires forall j :: 0 <= j < |rules| ==> !Fires(rules[j], d)
    ensures FirstMatch(rules, d, default) == default
  {
    if rules != [] {
      assert !Fires(rules[0], d);
      FirstMatchDefault(rules[1..], d, default);
    }
  }

  /** The controller's rules in priority order, with `Advance` as default. */
  const PriorityRules: seq<Rule> := [
    Rule(CenterZone, VeryClose, EmergencyTurn),
    Rule(LeftZone, Close, TurnRight),
    Rule(RightZone, Close, TurnLeft)
  ]

  /** `evaluate_situation` is exactly the priority table read first-match-wins. */
  lemma EvaluateIsFirstMatch(d: Danger)
    ensures EvaluateSituation(d.left, d.center, d.right) == FirstMatch(PriorityRules, d, Advance)
  {
    var rs := PriorityRules;
    if Fires(rs[0], d) {
      FirstMatchPicksFirstFiring(rs, d, Advance, 0);
    } else if Fires(rs[1], d) {
      FirstMatchPicksFirstFiring(rs, d, Advance, 1);
    } else if Fires(rs[2], d) {
      FirstMatchPicksFirstFiring(rs, d, Advance, 2);
    } else {
      FirstMatchDefault(rs, d, Advance);
    }
  }

  // ---------------------------------------------------------------------
  // Left/right symmetry.
  // ---------------------------------------------------------------------

  function MirrorAction(a: Action): Action {
    match a
    case TurnLeft => TurnRight
    case TurnRight => TurnLeft
    case _ => a
  }

  /**
   * Swapping the left and right danger values mirrors the decision, unless
   * both sides are close: then left danger outranks right danger and the
   * robot turns right either way.
   */
  lemma EvaluateMirror(left: real, center: real, right: real)
    ensures !(left < Close && right < Close) ==>
              EvaluateSituation(right, center, left) == MirrorAction(EvaluateSituation(left, center, right))
    ensures center >= VeryClose && left < Close && right < Close ==>
              EvaluateSituation(right, center, left) == EvaluateSituation(left, center, right) == TurnRight
  {
  }

  /** The two turns are mirror images of each other on the wheels. */
  lemma WheelSpeedsMirror(a: Action)
    requires a != EmergencyTurn
    ensures GetWheelSpeeds(MirrorAction(a)) == WheelSpeeds(GetWheelSpeeds(a).right, GetWheelSpeeds(a).left)
  {
  }

  // ---------------------------------------------------------------------
  // End to end, on the raw readings.
  // ---------------------------------------------------------------------

  /**
   * The decision stated on the raw readings, with no minima: a zone is in
   * danger when either of its two sonars reads below the threshold.
   */
  function ActionFromReadings(readings: seq<real>): Action
    requires |readings| >= 8
  {
    if readings[4] < VeryClose || readings[5] < VeryClose then EmergencyTurn
    else if readings[2] < Close || readings[3] < Close then TurnRight
    else if readings[6] < Close || readings[7] < Close then TurnLeft
    else Advance
  }

  /**
   * For eight or more readings `compute_movement` succeeds and commands the
   * speeds of the action the raw readings call for.
   */
  lemma ComputeMovementFromReadings(readings: seq<real>)
    requires |readings| >= 8
    ensures ComputeMovement(readings) == Ok(GetWheelSpeeds(ActionFromReadings(readings)))
  {
  }

  /**
   * Whenever `compute_movement` succeeds (seven readings or more), the robot
   * reverses its left wheel exactly when a front sonar reads closer than
   * `VeryClose`, whatever the side sonars read.
   */
  lemma ReversesOnlyOnFrontalDanger(readings: seq<real>)
    requires |readings| >= 7
    ensures ComputeMovement(readings).Ok?
    ensures ComputeMovement(readings).value.left < 0.0 <==> readings[4] < VeryClose || readings[5] < VeryClose
  {
    if |readings| == 7 {
      SevenReadings(readings);
    }
  }

  /** The command depends on readings [2,8) alone. */
  lemma ComputeMovementDependsOnlyOnWindows(r1: seq<real>, r2: seq<real>)
    requires |r1| >= 8 && |r2| >= 8
    requires r1[2..8] == r2[2..8]
    ensures ComputeMovement(r1) == ComputeMovement(r2)
  {
  }
}
