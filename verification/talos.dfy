/**
 * The Talos humanoid robot as it registers itself with the stack-of-tasks
 * robot abstraction (src/dynamic_graph/sot/talos/talos.py:35-106).
 *
 * The base robot (`AbstractHumanoidRobot`), the model loader and
 * `initializeRobot` are external: the base's state arrives as constructor
 * parameters, the loader as the dimension it reports, and `initializeRobot`
 * as a ghost count of its calls.
 */
module TalosRobot {
  import opened Matrices

  /** The actuation device handle, stored and never inspected. */
  type Device

  /** The tracer handle given to the base robot, stored and never inspected. */
  type Tracer

  /** The dynamics-engine selector, forwarded to the loader unexamined. */
  type DynamicType

  datatype Option<T> = None | Some(value: T)

  /** An additional frame: a name, its transform in nested-row form, and the link it hangs from. */
  datatype Frame = Frame(name: string, transform: seq<seq<real>>, parent: string)

  /**
   * The dynamic model the loader built: the arguments it was called with
   * and the dimension `getDimension()` reports for it.
   */
  datatype DynamicModel = DynamicModel(
    name: string,
    modelDir: string,
    modelName: string,
    specificitiesPath: string,
    jointRankPath: string,
    dynamicType: DynamicType,
    dimension: nat)

  /** How construction ends: normally, or with the fatal dimension-mismatch error and both dimensions. */
  datatype Outcome = Success | DimensionMismatch(halfSittingDimension: nat, robotDimension: nat)

  /** A 4x4 homogeneous transform: four rows of four entries, the last being (0, 0, 0, 1). */
  predicate IsHomogeneous(t: seq<seq<real>>) {
    |t| == 4 &&
    (forall i :: 0 <= i < 4 ==> |t[i]| == 4) &&
    t[3] == [0.0, 0.0, 0.0, 1.0]
  }

  /** The translation column of a homogeneous transform. */
  function Translation(t: seq<seq<real>>): seq<real>
    requires IsHomogeneous(t)
  {
    [t[0][3], t[1][3], t[2][3]]
  }

  /** The upper-left 3x3 block of a homogeneous transform. */
  function Rotation(t: seq<seq<real>>): seq<seq<real>>
    requires IsHomogeneous(t)
  {
    [[t[0][0], t[0][1], t[0][2]],
     [t[1][0], t[1][1], t[1][2]],
     [t[2][0], t[2][1], t[2][2]]]
  }

  const Identity3: seq<seq<real>> := [[1.0, 0.0, 0.0], [0.0, 1.0, 0.0], [0.0, 0.0, 1.0]]

  class Talos {

    /** Pose of the left foot force sensor in the left ankle frame. */
    static const ForceSensorInLeftAnkle: seq<seq<real>> :=
      [[1.0, 0.0, 0.0, 0.0],
       [0.0, 1.0, 0.0, 0.0],
       [0.0, 0.0, 1.0, -0.105],
       [0.0, 0.0, 0.0, 1.0]]

    /** Pose of the right foot force sensor in the right ankle frame. */
    static const ForceSensorInRightAnkle: seq<seq<real>> :=
      [[1.0, 0.0, 0.0, 0.0],
       [0.0, 1.0, 0.0, 0.0],
       [0.0, 0.0, 1.0, -0.105],
       [0.0, 0.0, 0.0, 1.0]]

    /** Pose of the accelerometer in the chest frame. */
    static const AccelerometerPosition: Matrix :=
      Matrix(4, 4,
        [1.0, 0.0, 0.0, -0.13,
         0.0, 1.0, 0.0, 0.0,
         0.0, 0.0, 1.0, 0.118,
         0.0, 0.0, 0.0, 1.0])

    /** Pose of the gyrometer in the chest frame. */
    static const GyrometerPosition: Matrix :=
      Matrix(4, 4,
        [1.0, 0.0, 0.0, -0.13,
         0.0, 1.0, 0.0, 0.0,
         0.0, 0.0, 1.0, 0.118,
         0.0, 0.0, 0.0, 1.0])

    /** File names under the model and XML directories, and the suffix naming the dynamic entity. */
    static const ModelFile: string := "talos.wrl"
    static const SpecificitiesFile: string := "/TALOSSpecificitiesSmall.xml"
    static const JointRankFile: string := "/TALOSLinkJointRankSmall.xml"
    static const DynamicSuffix: string := "_dynamic"

    /** Number of zeros `smallToFull` appends. */
    static const PaddingLength: nat := 10

    /**
     * `smallToFull`: extends a reduced configuration to a full one by
     * appending ten zero joint values.
     */
    static function SmallToFull(config: seq<real>): (r: seq<real>)
      ensures |r| == |config| + 10
      ensures r[..|config|] == config
      ensures forall k :: |config| <= k < |r| ==> r[k] == 0.0
    {
      config + seq(PaddingLength, _ => 0.0)
    }

    /**
     * The four frames Talos adds, in the order it appends them; each hangs
     * from its link by a rigid transform without rotation.
     */
    static function TalosFrames(): (r: seq<Frame>)
      ensures |r| == 4
      ensures forall k :: 0 <= k < 4 ==>
        IsHomogeneous(r[k].transform) && Rotation(r[k].transform) == Identity3
    {
      TransformConstants();
      [Frame("accelerometer", Rows(AccelerometerPosition), "chest"),
       Frame("gyrometer", Rows(GyrometerPosition), "chest"),
       Frame("leftFootForceSensor", ForceSensorInLeftAnkle, "left-ankle"),
       Frame("rightFootForceSensor", ForceSensorInRightAnkle, "right-ankle")]
    }

    // State set up by the base robot.
    const name: string
    const tracer: Option<Tracer>
    var operationalPoints: seq<string>
    var additionalFrames: seq<Frame>
    const halfSitting: seq<real>

    // State Talos adds.
    var device: Option<Device>
    var modelDir: string
    var modelName: string
    var specificitiesPath: string
    var jointRankPath: string
    var dynamic: Option<DynamicModel>
    var dimension: nat
    var plugVelocityFromDevice: bool

    /** How many times `initializeRobot` has run on this robot. */
    ghost var initializeRobotCalls: nat

    /**
     * The base initialisation `AbstractHumanoidRobot.__init__(self, name, tracer)`:
     * the lists it starts with and the half-sitting posture are its own and
     * are taken as given.
     */
    constructor (name: string, tracer: Option<Tracer>, operationalPoints: seq<string>,
                 additionalFrames: seq<Frame>, halfSitting: seq<real>)
      ensures this.name == name && this.tracer == tracer
      ensures this.operationalPoints == operationalPoints
      ensures this.additionalFrames == additionalFrames
      ensures this.halfSitting == halfSitting
      ensures device == None && dynamic == None
      ensures !plugVelocityFromDevice && initializeRobotCalls == 0
    {
      this.name := name;
      this.tracer := tracer;
      this.operationalPoints := operationalPoints;
      this.additionalFrames := additionalFrames;
      this.halfSitting := halfSitting;
      device := None;
      modelDir, modelName, specificitiesPath, jointRankPath := "", "", "", "";
      dynamic := None;
      dimension := 0;
      plugVelocityFromDevice := false;
      initializeRobotCalls := 0;
    }

    /**
     * The rest of `Talos.__init__`: registers the operational points and
     * sensor frames, loads the model (whose dimension the loader reports as
     * `loadedDimension`), and fails if that dimension is not the length of
     * the half-sitting posture; otherwise runs `initializeRobot`.
     * Everything before the check happens in both cases.
     */
    method Init(modelDir: string, xmlDir: string, device: Device, dynamicType: DynamicType,
                loadedDimension: nat) returns (outcome: Outcome)
      modifies this
      ensures operationalPoints == old(operationalPoints) + ["waist", "chest"]
      ensures additionalFrames == old(additionalFrames) + TalosFrames()
      ensures this.device == Some(device) && this.modelDir == modelDir
      ensures modelName == ModelFile
      ensures specificitiesPath == xmlDir + SpecificitiesFile
      ensures jointRankPath == xmlDir + JointRankFile
      ensures dynamic == Some(DynamicModel(name + DynamicSuffix, modelDir, ModelFile,
                                           specificitiesPath, jointRankPath, dynamicType,
                                           loadedDimension))
      ensures dimension == loadedDimension
      ensures plugVelocityFromDevice
      ensures outcome == if loadedDimension == |halfSitting| then Success
                         else DimensionMismatch(|halfSitting|, loadedDimension)
      ensures initializeRobotCalls == old(initializeRobotCalls) + if outcome == Success then 1 else 0
    {
      operationalPoints := operationalPoints + ["waist"];
      operationalPoints := operationalPoints + ["chest"];
      this.device := Some(device);
      this.modelDir := modelDir;
      modelName := ModelFile;
      specificitiesPath := xmlDir + SpecificitiesFile;
      jointRankPath := xmlDir + JointRankFile;

      AddSensorFrames();

      dynamic := Some(DynamicModel(name + DynamicSuffix, modelDir, modelName,
                                   specificitiesPath, jointRankPath, dynamicType,
                                   loadedDimension));
      dimension := dynamic.value.dimension;
      plugVelocityFromDevice := true;

      if dimension != |halfSitting| {
        outcome := DimensionMismatch(|halfSitting|, dimension);
      } else {
        initializeRobotCalls := initializeRobotCalls + 1;
        outcome := Success;
      }
    }

    /** Appends the four sensor frames, in order, to the additional frames. */
    method AddSensorFrames()
      modifies this`additionalFrames
      ensures additionalFrames == old(additionalFrames) + TalosFrames()
    {
      ghost var before := additionalFrames;
      var accelerometer := MatrixToTuple(AccelerometerPosition);
      additionalFrames := additionalFrames + [Frame("accelerometer", accelerometer, "chest")];
      var gyrometer := MatrixToTuple(GyrometerPosition);
      additionalFrames := additionalFrames + [Frame("gyrometer", gyrometer, "chest")];
      additionalFrames := additionalFrames
        + [Frame("leftFootForceSensor", ForceSensorInLeftAnkle, "left-ankle")];
      additionalFrames := additionalFrames
        + [Frame("rightFootForceSensor", ForceSensorInRightAnkle, "right-ankle")];
      assert additionalFrames == before + TalosFrames();
    }
  }

  /** `t` is a 4x4 homogeneous transform that translates by `v` and does not rotate. */
  predicate IsTranslation(t: seq<seq<real>>, v: seq<real>) {
    IsHomogeneous(t) && Rotation(t) == Identity3 && Translation(t) == v
  }

  /**
   * The frames Talos adds are named "accelerometer", "gyrometer",
   * "leftFootForceSensor" and "rightFootForceSensor", hang from "chest",
   * "chest", "left-ankle" and "right-ankle", and carry 4x4 homogeneous
   * transforms without rotation: the two chest sensors are offset by
   * (-0.13, 0, 0.118), the two force sensors by (0, 0, -0.105). The chest
   * sensors' transforms convert back to the matrices they were built from,
   * and the force sensors' are the class constants themselves.
   */
  lemma SensorFrames()
    ensures Talos.AccelerometerPosition.Valid() && Talos.GyrometerPosition.Valid()
    ensures |Talos.TalosFrames()| == 4
    ensures [Talos.TalosFrames()[0].name, Talos.TalosFrames()[1].name,
             Talos.TalosFrames()[2].name, Talos.TalosFrames()[3].name]
         == ["accelerometer", "gyrometer", "leftFootForceSensor", "rightFootForceSensor"]
    ensures [Talos.TalosFrames()[0].parent, Talos.TalosFrames()[1].parent,
             Talos.TalosFrames()[2].parent, Talos.TalosFrames()[3].parent]
         == ["chest", "chest", "left-ankle", "right-ankle"]
    ensures IsTranslation(Talos.TalosFrames()[0].transform, [-0.13, 0.0, 0.118])
    ensures IsTranslation(Talos.TalosFrames()[1].transform, [-0.13, 0.0, 0.118])
    ensures IsTranslation(Talos.TalosFrames()[2].transform, [0.0, 0.0, -0.105])
    ensures IsTranslation(Talos.TalosFrames()[3].transform, [0.0, 0.0, -0.105])
    ensures FromRows(Talos.TalosFrames()[0].transform) == Talos.AccelerometerPosition
    ensures FromRows(Talos.TalosFrames()[1].transform) == Talos.GyrometerPosition
    ensures Talos.TalosFrames()[2].transform == Talos.ForceSensorInLeftAnkle
    ensures Talos.TalosFrames()[3].transform == Talos.ForceSensorInRightAnkle
  {
    TransformConstants();
    RowsThenFromRows(Talos.AccelerometerPosition);
    RowsThenFromRows(Talos.GyrometerPosition);
  }

  /**
   * The pose constants are pure translations: the chest sensors' matrices,
   * in nested-row form, by (-0.13, 0, 0.118), the force sensors' tuples by
   * (0, 0, -0.105).
   */
  lemma TransformConstants()
    ensures Talos.AccelerometerPosition.Valid() && Talos.GyrometerPosition.Valid()
    ensures IsTranslation(Rows(Talos.AccelerometerPosition), [-0.13, 0.0, 0.118])
    ensures IsTranslation(Rows(Talos.GyrometerPosition), [-0.13, 0.0, 0.118])
    ensures IsTranslation(Talos.ForceSensorInLeftAnkle, [0.0, 0.0, -0.105])
    ensures IsTranslation(Talos.ForceSensorInRightAnkle, [0.0, 0.0, -0.105])
  {
    ChestSensorIsTranslation(Talos.AccelerometerPosition);
    ChestSensorIsTranslation(Talos.GyrometerPosition);
  }

  /** The chest sensor matrices are well-formed 4x4 matrices. */
  lemma SensorMatricesValid()
    ensures Talos.AccelerometerPosition.Valid()
    ensures Talos.AccelerometerPosition.rows == 4 && Talos.AccelerometerPosition.cols == 4
    ensures Talos.GyrometerPosition.Valid()
    ensures Talos.GyrometerPosition.rows == 4 && Talos.GyrometerPosition.cols == 4
  {
  }

  /** Either chest sensor matrix, split into rows, translates by (-0.13, 0, 0.118) without rotating. */
  lemma ChestSensorIsTranslation(M: Matrix)
    requires M == Talos.AccelerometerPosition || M == Talos.GyrometerPosition
    ensures M.Valid() && IsTranslation(Rows(M), [-0.13, 0.0, 0.118])
  {
    var t := Rows(M);
    assert t[0] == M.entries[0..4] == [1.0, 0.0, 0.0, -0.13];
    assert t[1] == M.entries[4..8] == [0.0, 1.0, 0.0, 0.0];
    assert t[2] == M.entries[8..12] == [0.0, 0.0, 1.0, 0.118];
    assert t[3] == M.entries[12..16] == [0.0, 0.0, 0.0, 1.0];
  }
}
