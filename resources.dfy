/** The resource directory of src/static_resources.ts: handles of the groups
    and sensors the rules refer to (injected, since they are looked up on the
    bridge), the transition times, and the scene identifiers, copied as data. */
module Resources {
  import opened Rules

  /** `MyGroups`: the group handles by name. */
  datatype KnownGroups = KnownGroups(
    group0: GroupRef,
    livingRoom: GroupRef,
    espresso: GroupRef,
    kok: GroupRef,
    hallway: GroupRef,
    bedroom: GroupRef)

  /** `MySensors`: the sensor handles by name. */
  datatype KnownSensors = KnownSensors(
    builtinDaylight: SensorRef,
    dimmerSwitch: SensorRef,
    hallwayPresence: SensorRef,
    hallwayLightLevel: SensorRef,
    kitchenPresence: SensorRef,
    kitchenLightLevel: SensorRef,
    livingroomPresence: SensorRef,
    livingroomLightLevel: SensorRef)

  /** `transitionTimes.set_scene` */
  const SetSceneTransition: nat := 0
  /** `transitionTimes.dimming` */
  const DimmingTransition: nat := 3

  // `known_scenes`
  const KitchenVeryBright: SceneId := "Dy4JnbnTdD9GOu7"
  const KitchenDimmed: SceneId := "1Fhe-qar2rOf-6D"
  const KitchenNightlight: SceneId := "PzTl0lm1Xn4nzHM"
  const HallwayVeryDimmed: SceneId := "bmTK0pTtYUAJlGw"
  const HallwaySemiBright: SceneId := "JtPUJRpFv2LVJvq"
  const LivingroomBright: SceneId := "DqXCpluUaZh7Rnd"
  const LivingroomOsaka: SceneId := "PhDFbG2LYtXnB2J"
  const LivingroomRelax: SceneId := "MaGOnFXSzZjebjP"

  /** `DayCycle`, the second key of the activity scene table. */
  datatype DayCycle = Day | EarlyNight | LateNight

  /** `activity_scenes[activity][cycle]`: the table itself is not part of the
      model, so it is passed in as a function. */
  type ActivityScenes = (int, DayCycle) -> SceneId
}
