/** The virtual status registry of src/variables.ts: the enumerations whose
    numeric values the virtual CLIP sensors hold, the sensor factory that
    stamps each sensor with a unique id from a module-wide counter, and the
    six status sensors created at provisioning time. */
module Variables {
  import opened Strings

  // ---- MotionRuleStatus (variables.ts:4-9) ----
  const Armed: int := 0
  const ShouldTriggerScene: int := 1
  const SceneTriggered: int := 2
  const Dimmed: int := 3
  /** The names of the newer generation for the same two values (debug.ts:15-18). */
  const PlanGroupOn: int := ShouldTriggerScene
  const GroupOn: int := SceneTriggered

  // ---- DimmingLevel (variables.ts:11-17); the codes do not follow brightness order ----
  const DimmingVeryDimmed: int := 4
  const DimmingDimmed: int := 3
  const DimmingNeutral: int := 0
  const DimmingBright: int := 1
  const DimmingVeryBright: int := 2

  /** BrightnessLevel is imported by the rule builders but not declared in
      variables.ts; it is taken to carry the DimmingLevel codes. Only the
      distinctness of the five codes is used. */
  const BrightnessVeryDimmed: int := DimmingVeryDimmed
  const BrightnessDimmed: int := DimmingDimmed
  const BrightnessNeutral: int := DimmingNeutral
  const BrightnessBright: int := DimmingBright
  const BrightnessVeryBright: int := DimmingVeryBright

  // ---- LateNightRuleStatus (variables.ts:19-22) ----
  const NotLateNight: int := 0
  const IsLateNight: int := 1

  // ---- ActivityStatus (variables.ts:24-27); Focus, Dinner and Tv are not
  //      declared there and are given the next free codes ----
  const Normal: int := 0
  const Relax: int := 1
  const Focus: int := 2
  const Dinner: int := 3
  const Tv: int := 4

  /** SceneSetStatus is not declared in variables.ts. It is an ordered enum
      NotSet < Set, and WasSet denotes the same value as Set: the selection
      rules test `< WasSet` and write WasSet, the recover rule tests `== Set`. */
  const SceneNotSet: int := 0
  const SceneSet: int := 1
  const SceneWasSet: int := SceneSet

  /** DIMMING_TIME (a transition time) and DIMMING_TIME_TIMESTAMP (a delay)
      are not declared in variables.ts; they stay abstract. */
  const DimmingTime: nat
  const DimmingTimeTimestamp: string

  /** The fields of a CLIP generic status sensor that this program sets. */
  datatype ClipSensor = ClipSensor(
    name: string,
    modelid: string,
    swversion: string,
    uniqueid: string,
    manufacturername: string,
    status: int)

  /** `hue.model.createCLIPGenericStatusSensor()`: nothing set yet. */
  function NewStatusSensor(): ClipSensor {
    ClipSensor("", "", "", "", "", 0)
  }

  const Manufacturer: string := "hue-rules-manager"

  /** `${prefix}-${k}` */
  function UniqueId(prefix: string, k: nat): (u: string)
    ensures StartsWith(u, prefix)
  {
    prefix + "-" + NatToString(k)
  }

  /** Different counter values give different unique ids. */
  lemma UniqueIdInjective(prefix: string, j: nat, k: nat)
    requires UniqueId(prefix, j) == UniqueId(prefix, k)
    ensures j == k
  {
    assert UniqueId(prefix, j) == (prefix + "-") + NatToString(j);
    assert UniqueId(prefix, k) == (prefix + "-") + NatToString(k);
    AppendCancel(prefix + "-", NatToString(j), NatToString(k));
    NatToStringInjective(j, k);
  }

  /** The sensor as `setupSensor` hands it to `beforeRegister`. */
  function Stamped(base: ClipSensor, prefix: string, k: nat): (s: ClipSensor)
    ensures s.manufacturername == Manufacturer && StartsWith(s.uniqueid, prefix)
  {
    base.(modelid := "software", swversion := "1.0",
          uniqueid := UniqueId(prefix, k), manufacturername := Manufacturer)
  }

  /** The result of `createVariables`, in declaration order. */
  datatype ProvisionedVariables = ProvisionedVariables(
    kitchenStatus: ClipSensor,
    hallwayStatus: ClipSensor,
    livingroomStatus: ClipSensor,
    isLateNightStatus: ClipSensor,
    activity: ClipSensor,
    dimming: ClipSensor)

  function AllVariables(v: ProvisionedVariables): seq<ClipSensor> {
    [v.kitchenStatus, v.hallwayStatus, v.livingroomStatus, v.isLateNightStatus, v.activity, v.dimming]
  }

  /** The six sensors carry the unique ids k, k+1, ..., k+5 under `prefix`
      and the program's manufacturer tag. */
  predicate IdsFrom(v: ProvisionedVariables, prefix: string, k: nat) {
    && v.kitchenStatus.uniqueid == UniqueId(prefix, k)
    && v.hallwayStatus.uniqueid == UniqueId(prefix, k + 1)
    && v.livingroomStatus.uniqueid == UniqueId(prefix, k + 2)
    && v.isLateNightStatus.uniqueid == UniqueId(prefix, k + 3)
    && v.activity.uniqueid == UniqueId(prefix, k + 4)
    && v.dimming.uniqueid == UniqueId(prefix, k + 5)
    && forall i | 0 <= i < 6 :: AllVariables(v)[i].manufacturername == Manufacturer
  }

  /** The sensor factory with its module-wide `sensor_id_index` counter.
      PREFIX comes from the environment and is fixed for the run. */
  class Registry {
    const prefix: string
    var sensorIdIndex: nat

    constructor (prefix: string)
      ensures this.prefix == prefix && sensorIdIndex == 0
    {
      this.prefix := prefix;
      sensorIdIndex := 0;
    }

    /** `setupSensor`: stamps the fixed fields and the next unique id, bumps
        the counter, then lets the caller's `beforeRegister` adjust the sensor.
        The bridge's `createSensor` call is not modelled. */
    method SetupSensor(base: ClipSensor, beforeRegister: ClipSensor -> ClipSensor) returns (s: ClipSensor)
      modifies this
      ensures sensorIdIndex == old(sensorIdIndex) + 1
      ensures s == beforeRegister(Stamped(base, prefix, old(sensorIdIndex)))
    {
      var sensor := base;
      sensor := sensor.(modelid := "software");
      sensor := sensor.(swversion := "1.0");
      sensor := sensor.(uniqueid := prefix + "-" + NatToString(sensorIdIndex));
      sensorIdIndex := sensorIdIndex + 1;
      sensor := sensor.(manufacturername := Manufacturer);
      s := beforeRegister(sensor);
    }

    /** `setupCLIPGenericStatusSensor(api, name, status)` */
    method SetupStatusSensor(name: string, status: int) returns (s: ClipSensor)
      modifies this
      ensures sensorIdIndex == old(sensorIdIndex) + 1
      ensures s.name == name && s.status == status
      ensures s.modelid == "software" && s.swversion == "1.0"
      ensures s.manufacturername == Manufacturer
      ensures s.uniqueid == UniqueId(prefix, old(sensorIdIndex))
    {
      s := SetupSensor(NewStatusSensor(), (x: ClipSensor) => x.(name := name, status := status));
    }

    /** `createVariables`: six status sensors, created in this order. */
    method CreateVariables() returns (v: ProvisionedVariables)
      modifies this
      ensures sensorIdIndex == old(sensorIdIndex) + 6
      ensures v.kitchenStatus.name == "kitchen sensor status" && v.kitchenStatus.status == Armed
      ensures v.hallwayStatus.name == "hallway sensor status" && v.hallwayStatus.status == Armed
      ensures v.livingroomStatus.name == "livingroom sensor status" && v.livingroomStatus.status == Armed
      ensures v.isLateNightStatus.name == "is_late_night sensor status" && v.isLateNightStatus.status == NotLateNight
      ensures v.activity.name == "activity sensor status" && v.activity.status == Normal
      ensures v.dimming.name == "dimming sensor status" && v.dimming.status == DimmingNeutral
      ensures IdsFrom(v, prefix, old(sensorIdIndex))
    {
      var kitchen := SetupStatusSensor("kitchen sensor status", Armed);
      var hallway := SetupStatusSensor("hallway sensor status", Armed);
      var livingroom := SetupStatusSensor("livingroom sensor status", Armed);
      var lateNight := SetupStatusSensor("is_late_night sensor status", NotLateNight);
      var activity := SetupStatusSensor("activity sensor status", Normal);
      var dimming := SetupStatusSensor("dimming sensor status", DimmingNeutral);
      v := ProvisionedVariables(kitchen, hallway, livingroom, lateNight, activity, dimming);
    }
  }

  /** Sensors stamped with counter values j != k carry different unique ids,
      so the sensors of one run are pairwise distinct by uniqueid. */
  lemma StampedDistinct(b1: ClipSensor, b2: ClipSensor, prefix: string, j: nat, k: nat)
    requires j != k
    ensures Stamped(b1, prefix, j).uniqueid != Stamped(b2, prefix, k).uniqueid
  {
    if UniqueId(prefix, j) == UniqueId(prefix, k) {
      UniqueIdInjective(prefix, j, k);
    }
  }
}
