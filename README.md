# Obstacle-avoidance decision pipeline of a P3DX sonar robot

This project models the decision core of a small reactive controller for a
Pioneer P3DX differential-drive robot (`main.py`). Each control cycle, the
sonar distances are handled in three steps:

1. **Zone aggregation** (`SensorReader.get_danger_zones`). The reading array
   is reduced to three danger values (left, center, right). Each value is the
   minimum of a fixed window of two readings: [2,4), [4,6) and [6,8).
2. **Rule evaluation** (`FuzzyController.evaluate_situation`). A
   first-match-wins threshold table picks one of four actions. Frontal
   danger below `VERY_CLOSE = 0.8` comes first, then left danger below
   `CLOSE = 0.5`, then right danger below `CLOSE`. Otherwise the robot
   advances.
3. **Speed lookup** (`FuzzyController.get_wheel_speeds`). A fixed table maps
   each action to a pair of wheel speeds.

`compute_movement` composes the three steps.

Files:

- `wrappers.dfy`: module `Wrappers`, the `Result` type. Its error case
  stands for the exception Python raises.
- `rules.dfy`: module `FuzzyRules`, the constants, `Action` and
  `WheelSpeeds`.
- `sensor_reader.dfy`: module `SensorReader`, the zone aggregation. It models
  Python slicing and `min()` as they behave.
- `fuzzy_controller.dfy`: module `FuzzyController`. It holds the rules, the
  speed table and their composition. It also holds a reference definition of
  the rules as a generic first-match decision table (`FirstMatch` over
  `PriorityRules`) and the lemmas that tie the two together.

Sonar distances and wheel speeds are `real`. The source only takes minima
and makes strict comparisons against constants, so no floating-point
semantics are needed.

Aggregation is modelled for readings of every length, because Python does
not reject short arrays up front. `readings[a:b]` clips its bounds to the
length. So an array of 7 readings still succeeds, with the right window
holding only `readings[6]` (`SensorReader.SevenReadings`). Only arrays of 6
or fewer readings reach `min()` of an empty slice. That raises `ValueError`,
modelled as `Err(EmptySequence)`. The properties meant for the full sonar
array are stated under `|readings| >= 8`.

The action is a closed datatype. So the `KeyError` that the dictionary
lookup in `get_wheel_speeds` could raise for an unknown action string cannot
occur, and `GetWheelSpeeds` is total.

## Model

| member | source | states |
|---|---|---|
| `SensorReader.Slice` | main.py:28-30 | Python's `s[lo:hi]` for `0 <= lo <= hi`: the length is clipped to the array (0 when `lo` is past the end), and element `i` is `s[lo + i]` |
| `SensorReader.Min` | main.py:28-30 | `min()` of a non-empty sequence is one of its elements and is at most every element |
| `SensorReader.MinOf` | main.py:28-30 | `min()` fails (ValueError) exactly on an empty sequence; otherwise it returns a member that is at most every element |
| `SensorReader.GetDangerZones` | main.py:23-32 | succeeds exactly when there are at least 7 readings; with 8 or more, each zone value is the minimum of its window (at most both readings and equal to one of them) |
| `SensorReader.SevenReadings` | main.py:28-30 | with exactly 7 readings the call succeeds and the right danger value is `readings[6]`, the single reading in its window |
| `SensorReader.DependsOnlyOnWindows` | main.py:28-30 | two arrays of 8 or more readings that agree on indices [2,8) give the same danger triple |
| `SensorReader.UpdateOutsideWindows` | main.py:28-30 | overwriting any reading outside [2,8) leaves the outcome unchanged, for every array length, including the failing ones |
| `FuzzyController.EvaluateSituation` | main.py:42-51 | emergency turn exactly when `center < 0.8`, whatever the sides are; turn right exactly when center is not very close and `left < 0.5`, even if the right side is close too; turn left exactly when center and left are clear and `right < 0.5`; advance exactly when all three clear their thresholds; a value equal to a threshold does not trigger its rule |
| `FuzzyController.GetWheelSpeeds` | main.py:53-60 | the table is total; every speed has magnitude at most 1.0; only the emergency turn gives a negative left speed; the right speed is always positive; equal speeds exactly for advance; the left wheel is slower exactly for turn-left and emergency turn, and faster exactly for turn-right |
| `FuzzyController.WheelSpeedsInjective` | main.py:54-59 | distinct actions get distinct speed pairs |
| `FuzzyController.WheelSpeedsMirror` | main.py:56-57 | the turn-left pair is the turn-right pair with the wheels swapped |
| `FuzzyController.ComputeMovement` | main.py:62-65 | fails exactly when aggregation fails (fewer than 7 readings); every command it produces is one of the four table entries |
| `FuzzyController.FirstMatchPicksFirstFiring` | main.py:44-51 | a first-match table yields the action of rule `k` when rule `k` fires and no earlier rule does |
| `FuzzyController.FirstMatchDefault` | main.py:44-51 | a first-match table yields its default when no rule fires |
| `FuzzyController.EvaluateIsFirstMatch` | main.py:44-51 | `evaluate_situation` is the priority table (center < 0.8, left < 0.5, right < 0.5, default advance) read first-match-wins |
| `FuzzyController.EvaluateMirror` | main.py:44-51 | swapping the left and right danger values mirrors the action unless both sides are close; when both are close and the center is clear, the robot turns right either way |
| `FuzzyController.ComputeMovementFromReadings` | main.py:62-65 | with 8 or more readings, the command is the table entry for the action read directly off the raw sonars: emergency if either front sonar is below 0.8, else turn right if either left sonar is below 0.5, else turn left if either right sonar is below 0.5, else advance |
| `FuzzyController.ReversesOnlyOnFrontalDanger` | main.py:62-65 | with 7 or more readings (every length the code accepts), the left wheel runs backwards exactly when a front sonar reads below 0.8 |
| `FuzzyController.ComputeMovementDependsOnlyOnWindows` | main.py:62-65 | the wheel command depends only on readings [2,8) |

## Left out

- `run_robot` (main.py:68-80) is left out. It covers the simulator lifecycle (start, poll while running, stop in `finally`), reading the sonars and sending motor commands, all through the `robotica` module. That is I/O and foreign calls. `robotica` is not part of this model.
- `SAFE = 0.3` is kept as the unused constant `FuzzyRules.Safe`. No rule reads it, so there is nothing to prove about it.
- IEEE floating point is not modelled (NaN, infinities, rounding). Readings and speeds are exact reals.
- Python `min()` is not modelled on non-numeric or mixed elements. The readings are reals only.
- The `@dataclass` holder `FuzzyRules` and `FuzzyController.__init__` are not modelled. They only hold constants and a helper object and carry no behaviour.
- The `KeyError` path of the dictionary lookup (main.py:60) is not modelled, because the closed `Action` datatype makes it impossible.
