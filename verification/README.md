# Talos robot description, modelled in Dafny

This project models `Talos`, the class that describes the Talos humanoid
robot to the stack-of-tasks robot abstraction (`AbstractHumanoidRobot`).
Constructing a `Talos` registers two operational points (`waist`, `chest`)
and four sensor frames (accelerometer, gyrometer, and the two foot force
sensors, each with a fixed 4x4 pose and a parent link). It builds the paths
of the two XML description files and has the external loader build the
dynamic model. It then refuses to go on when the model's dimension differs
from the length of the half-sitting posture. Two helpers are modelled with
it: `matrixToTuple`, which freezes a matrix into nested row tuples, and
`smallToFull`, which pads a reduced configuration with ten zeros.

Files:

- `matrix.dfy`, module `Matrices`: a numpy matrix as a shape plus its
  entries in row-major order; its nested-row form `Rows`; `MatrixToTuple`
  as the row-appending loop; the reverse conversion `FromRows`; and the
  round trips in both directions.
- `talos.dfy`, module `TalosRobot`: the constant poses, `SmallToFull`, the
  frames Talos adds, and class `Talos`. The class's constructor stands for
  the base initialisation. Its method `Init` is the rest of `__init__`,
  which appends to the `operationalPoints` and `additionalFrames` fields in
  place and returns how construction ended.

External pieces are parameters. The base robot's initial lists, name,
tracer and half-sitting posture are constructor arguments. The loader is
the dimension it reports (`loadedDimension`); the arguments it was called
with are recorded in the `dynamic` field. `initializeRobot` is a ghost
count of its calls. The device, tracer and dynamics-engine selector are
abstract types that are stored or forwarded and never inspected.

`Init`'s postconditions give every field it writes a single value in terms
of its inputs and the old state. Two robots that start from equal initial
lists and get the same loader answer therefore end up with the same
configuration.

Facts about the code that the model states:

- The XML file names are fixed literals appended to `xmlDir`
  (talos.py:76-77).
- The code never checks that a rotation part is orthonormal. The model
  proves only that the literal poses have the identity rotation.
- `Init` appends exactly `waist` then `chest` to the operational points.

## Model

| member | source | states |
|---|---|---|
| `Matrices.Rows` | src/dynamic_graph/sot/talos/talos.py:29 | `M.tolist()`: one row per matrix row, each as long as the matrix is wide, entry (i, j) being the matrix's entry (i, j) |
| `Matrices.MatrixToTuple` | src/dynamic_graph/sot/talos/talos.py:28-33 | the loop appends every row in order, so the result is the matrix's nested-row form, and for a matrix with at least one row it converts back to the same matrix |
| `Matrices.RowsThenFromRows` | src/dynamic_graph/sot/talos/talos.py:28-33 | converting a matrix with at least one row to nested rows and back yields the same shape and the same entries in the same order |
| `Matrices.FromRowsThenRows` | src/dynamic_graph/sot/talos/talos.py:28-33 | building a matrix from rectangular nested rows and converting it back yields the same rows: the conversion loses and reorders nothing |
| `TalosRobot.Talos.SmallToFull` | src/dynamic_graph/sot/talos/talos.py:63-65 | the result is ten longer than the configuration, starts with the configuration unchanged, and its last ten values are 0.0 |
| `TalosRobot.Talos.constructor` | src/dynamic_graph/sot/talos/talos.py:69 | the base initialisation leaves the given name, tracer, initial lists and half-sitting posture in place, no device, no dynamic model, velocity not plugged from the device, and no `initializeRobot` call yet |
| `TalosRobot.Talos.Init` | src/dynamic_graph/sot/talos/talos.py:71-106 | `waist` then `chest` are appended after the existing operational points; the four sensor frames are appended after the existing frames; device and model directory hold the inputs, the model name is `talos.wrl`, and the two XML paths are `xmlDir` followed by the fixed file names; the loader is called with `name + "_dynamic"` and these paths; `dimension` is the loader's dimension and velocity comes from the device. Construction succeeds and calls `initializeRobot` exactly once exactly when that dimension equals the half-sitting length. Otherwise it fails with (half-sitting length, dimension), with all the updates above already made |
| `TalosRobot.Talos.TalosFrames` | src/dynamic_graph/sot/talos/talos.py:79-90 | the four frame tuples in append order, `Rows` of each chest matrix standing for its `matrixToTuple`; there are exactly four, and each carries a 4x4 homogeneous transform with identity rotation |
| `TalosRobot.Talos.AddSensorFrames` | src/dynamic_graph/sot/talos/talos.py:79-90 | the four frames are appended after the existing frames, in source order, and nothing else changes |
| `TalosRobot.SensorFrames` | src/dynamic_graph/sot/talos/talos.py:40-61 | the added frames are named accelerometer, gyrometer, leftFootForceSensor and rightFootForceSensor, with parents chest, chest, left-ankle and right-ankle. Each transform is 4x4 with last row (0, 0, 0, 1) and identity rotation. The chest sensors are translated by (-0.13, 0, 0.118) and the force sensors by (0, 0, -0.105). The chest sensors' tuples convert back to their matrices, and the force sensors' are the constants themselves |
| `TalosRobot.TransformConstants` | src/dynamic_graph/sot/talos/talos.py:40-61 | the four pose constants, whose literals the class copies entry for entry, are homogeneous with identity rotation: the accelerometer and gyrometer matrices translate by (-0.13, 0, 0.118), the two force-sensor tuples by (0, 0, -0.105) |
| `TalosRobot.SensorMatricesValid` | src/dynamic_graph/sot/talos/talos.py:49-61 | the accelerometer and gyrometer matrices have four rows and four columns and exactly sixteen entries |

## Left out

- `AbstractHumanoidRobot.__init__`, `initializeRobot` and `loadModelFromJrlDynamics` belong to the external framework and are not part of this model. The base's state is taken as constructor arguments. `initializeRobot` only counts its calls, so whatever it does to the robot is not modelled. The loader is reduced to the dimension it reports, and the errors it may raise (missing files, malformed XML) are not modelled.
- The imports of `FeatureGeneric`, `FeatureJointLimits`, `Task`, `Constraint`, `GainAdaptive`, `SOT`, `AngleEstimator`, `enableTrace` and `plug` are unused by the file and are left out.
- Floating point: entries are `real`. The values are only copied, never computed with, so exact reals lose nothing the code relies on. numpy's element types and memory layout flags are not modelled.
- Exceptions: the Python constructor raises `RuntimeError` on a dimension mismatch and the half-built object is never handed to the caller. `Init` returns `DimensionMismatch` instead and leaves the object in the state it reached. The message text is not modelled, only its two numbers.
- The fields that `__init__` creates (`device`, `modelDir`, `modelName`, the two paths, `dynamic`, `dimension`) do not exist in Python before it runs. In the model they hold placeholder values (`None`, empty strings, 0) between the constructor and `Init`.
- The operational-point and additional-frame lists are modelled as values that one robot owns, given to the constructor and reassigned by `Init`. The Python appends change whatever list objects the base exposes, and those may be shared (for instance class-level lists), so a second construction could see the first one's entries. That sharing or aliasing of the base's list objects is not captured.
- `name` and `tracer` are `const`: the base sets them and nothing in this file changes them.
- `SmallToFull` assumes `config` is a tuple. In Python a list argument would raise a `TypeError` when concatenated with a tuple; that error is not modelled.
- `Matrices.RowsThenFromRows`: a matrix with no rows does not round-trip. Its nested-row form is empty and carries no column count.
- Orthonormality of the rotation parts is not stated as a general invariant, because the code never checks it.
