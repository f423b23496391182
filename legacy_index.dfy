/** The older generation of the program in src/index.ts: its own
    `RuleStatus` enumeration, a seven-rule motion state machine per room in
    which every rule recycles, the three rooms' scene-selection rules keyed by
    daylight and a local-time window, and the provisioning of the three room
    status sensors. */
module LegacyIndex {
  import opened Strings
  import opened Rules
  import opened Variables
  import opened Resources

  // ---- RuleStatus (index.ts:178-183): the same codes as MotionRuleStatus ----
  const LegacyArmed: int := Armed
  const LegacyShouldTriggerScene: int := ShouldTriggerScene
  const LegacySceneTriggered: int := SceneTriggered
  const LegacyDimmed: int := Dimmed

  const DimDelay: Duration := "PT00:04:00"
  const OffDelay: Duration := "PT00:00:30"
  /** The relative dimming step, sent as the string "-128". */
  const LegacyDimStep: int := -128
  const LateWindow: TimeWindow := "T23:00:00/T08:00:00"

  function StatusAttr(st: SensorRef): Address { SensorAttr(st, Status) }

  // ---- The older motionSensorBaseRules ----

  function PresenceOnRule(prefix: string, st: SensorRef, presence: SensorRef, light: SensorRef): Rule {
    Rule(prefix + " - presence on", true,
      [StatusEq(st, LegacyArmed), DarkIs(light, true), PresenceIs(presence, true),
       Changed(SensorAttr(presence, Presence))],
      [SetStatus(st, LegacyShouldTriggerScene)])
  }

  function DarkOnRule(prefix: string, st: SensorRef, presence: SensorRef, light: SensorRef): Rule {
    Rule(prefix + " - dark on", true,
      [StatusEq(st, LegacyArmed), DarkIs(light, true), PresenceIs(presence, true),
       Changed(SensorAttr(light, Dark))],
      [SetStatus(st, LegacyShouldTriggerScene)])
  }

  function DimStatusRule(prefix: string, st: SensorRef, presence: SensorRef, group: GroupRef): Rule {
    Rule(prefix + " - dim status", true,
      [StatusEq(st, LegacySceneTriggered), ChangedDelayed(StatusAttr(st), DimDelay), PresenceIs(presence, false)],
      [BriInc(group, LegacyDimStep, None), SetStatus(st, LegacyDimmed)])
  }

  function DimPresenceRule(prefix: string, st: SensorRef, presence: SensorRef, group: GroupRef): Rule {
    Rule(prefix + " - dim presence", true,
      [StatusEq(st, LegacySceneTriggered), ChangedDelayed(SensorAttr(presence, Presence), DimDelay),
       PresenceIs(presence, false)],
      [BriInc(group, LegacyDimStep, None), SetStatus(st, LegacyDimmed)])
  }

  function RecoverRule(prefix: string, st: SensorRef, presence: SensorRef): Rule {
    Rule(prefix + " - recover", true,
      [StatusGt(st, LegacyShouldTriggerScene), Changed(SensorAttr(presence, Presence)), PresenceIs(presence, true)],
      [SetStatus(st, LegacyShouldTriggerScene)])
  }

  function OffRule(prefix: string, st: SensorRef, presence: SensorRef, group: GroupRef): Rule {
    Rule(prefix + " - off", true,
      [PresenceIs(presence, false), StatusEq(st, LegacyDimmed), ChangedDelayed(StatusAttr(st), OffDelay)],
      [SetOn(group, false), SetStatus(st, LegacyArmed)])
  }

  function ArmRule(prefix: string, st: SensorRef, presence: SensorRef, group: GroupRef): Rule {
    Rule(prefix + " - arm", true,
      [PresenceIs(presence, false), StatusEq(st, LegacyDimmed), AnyOnIs(group, false)],
      [SetStatus(st, LegacyArmed)])
  }

  /** The older `motionSensorBaseRules(prefix, status_sensor, presence, light_level, group)`. */
  function LegacyBaseRules(prefix: string, st: SensorRef, presence: SensorRef, light: SensorRef, group: GroupRef): (rs: seq<Rule>)
    ensures |rs| == 7
  {
    [PresenceOnRule(prefix, st, presence, light), DarkOnRule(prefix, st, presence, light),
     DimStatusRule(prefix, st, presence, group), DimPresenceRule(prefix, st, presence, group),
     RecoverRule(prefix, st, presence),
     OffRule(prefix, st, presence, group), ArmRule(prefix, st, presence, group)]
  }

  /** All seven rules recycle, and each is named prefix plus its suffix. */
  lemma LegacyRulesNamed(prefix: string, st: SensorRef, presence: SensorRef, light: SensorRef, group: GroupRef)
    ensures forall i | 0 <= i < 7 ::
      LegacyBaseRules(prefix, st, presence, light, group)[i].recycle
      && LegacyBaseRules(prefix, st, presence, light, group)[i].name == prefix + LegacySuffix(i)
  {
  }

  function LegacySuffix(i: nat): string
    requires i < 7
  {
    [" - presence on", " - dark on", " - dim status", " - dim presence", " - recover", " - off", " - arm"][i]
  }

  /** The seven rules carry pairwise distinct names. */
  lemma LegacyRuleNamesDistinct(prefix: string, st: SensorRef, presence: SensorRef, light: SensorRef, group: GroupRef)
    ensures forall i, j | 0 <= i < j < 7 ::
      LegacyBaseRules(prefix, st, presence, light, group)[i].name != LegacyBaseRules(prefix, st, presence, light, group)[j].name
  {
    LegacyRulesNamed(prefix, st, presence, light, group);
    forall i: nat, j: nat | i < j < 7
      ensures LegacyBaseRules(prefix, st, presence, light, group)[i].name != LegacyBaseRules(prefix, st, presence, light, group)[j].name
    {
      PrefixedDistinct(prefix, LegacySuffix(i), LegacySuffix(j));
    }
  }

  /** Presence on and dark on test the same state (ARMED, dark, presence),
      differ only in which attribute must have changed, and both plan the
      scene. */
  lemma PresenceOnDarkOnSpec(prefix: string, st: SensorRef, presence: SensorRef, light: SensorRef, s: Snapshot, store: Store)
    ensures Matches(PresenceOnRule(prefix, st, presence, light), s) <==>
      StatusIs(s, st, LegacyArmed) && s.dark(light) && s.presence(presence) && s.changed(SensorAttr(presence, Presence))
    ensures Matches(DarkOnRule(prefix, st, presence, light), s) <==>
      StatusIs(s, st, LegacyArmed) && s.dark(light) && s.presence(presence) && s.changed(SensorAttr(light, Dark))
    ensures Apply(PresenceOnRule(prefix, st, presence, light).actions, store) == store[st := LegacyShouldTriggerScene]
    ensures DarkOnRule(prefix, st, presence, light).actions == PresenceOnRule(prefix, st, presence, light).actions
  {
    var p, d := PresenceOnRule(prefix, st, presence, light), DarkOnRule(prefix, st, presence, light);
    MatchFour(p, s, p.conditions[0], p.conditions[1], p.conditions[2], p.conditions[3]);
    MatchFour(d, s, d.conditions[0], d.conditions[1], d.conditions[2], d.conditions[3]);
    ApplyOne(p.actions[0], store);
  }

  /** Both dim rules need SCENE_TRIGGERED and no presence (one after the
      status, the other after the presence has been stable for four minutes);
      both dim the group by -128 and set DIMMED. */
  lemma DimRulesSpec(prefix: string, st: SensorRef, presence: SensorRef, group: GroupRef, s: Snapshot, store: Store)
    ensures Matches(DimStatusRule(prefix, st, presence, group), s) <==>
      StatusIs(s, st, LegacySceneTriggered) && s.stableFor(StatusAttr(st), DimDelay) && !s.presence(presence)
    ensures Matches(DimPresenceRule(prefix, st, presence, group), s) <==>
      StatusIs(s, st, LegacySceneTriggered) && s.stableFor(SensorAttr(presence, Presence), DimDelay) && !s.presence(presence)
    ensures Apply(DimStatusRule(prefix, st, presence, group).actions, store) == store[st := LegacyDimmed]
    ensures GroupCommands(DimStatusRule(prefix, st, presence, group).actions) == [BriInc(group, -128, None)]
    ensures DimPresenceRule(prefix, st, presence, group).actions == DimStatusRule(prefix, st, presence, group).actions
  {
    DimGuards(prefix, st, presence, group, s);
    CommandThenStatus(BriInc(group, LegacyDimStep, None), st, LegacyDimmed, store);
  }

  lemma DimGuards(prefix: string, st: SensorRef, presence: SensorRef, group: GroupRef, s: Snapshot)
    ensures Matches(DimStatusRule(prefix, st, presence, group), s) <==>
      StatusIs(s, st, LegacySceneTriggered) && s.stableFor(StatusAttr(st), DimDelay) && !s.presence(presence)
    ensures Matches(DimPresenceRule(prefix, st, presence, group), s) <==>
      StatusIs(s, st, LegacySceneTriggered) && s.stableFor(SensorAttr(presence, Presence), DimDelay) && !s.presence(presence)
  {
    var a, b := DimStatusRule(prefix, st, presence, group), DimPresenceRule(prefix, st, presence, group);
    MatchThree(a, s, a.conditions[0], a.conditions[1], a.conditions[2]);
    MatchThree(b, s, b.conditions[0], b.conditions[1], b.conditions[2]);
  }

  /** Recover fires on any status above SHOULD_TRIGGER_SCENE (SCENE_TRIGGERED
      or DIMMED among the codes) when presence changes to true. */
  lemma RecoverRuleSpec(prefix: string, st: SensorRef, presence: SensorRef, s: Snapshot, store: Store)
    ensures Matches(RecoverRule(prefix, st, presence), s) <==>
      st in s.status && s.status[st] > LegacyShouldTriggerScene
      && s.changed(SensorAttr(presence, Presence)) && s.presence(presence)
    ensures Apply(RecoverRule(prefix, st, presence).actions, store) == store[st := LegacyShouldTriggerScene]
    ensures GroupCommands(RecoverRule(prefix, st, presence).actions) == []
  {
    var r := RecoverRule(prefix, st, presence);
    MatchThree(r, s, r.conditions[0], r.conditions[1], r.conditions[2]);
    ApplyOne(r.actions[0], store);
  }

  /** Neither dim rule can fire together with recover: they disagree on presence. */
  lemma DimRecoverExclusive(prefix: string, st: SensorRef, presence: SensorRef, group: GroupRef)
    ensures Exclusive(DimStatusRule(prefix, st, presence, group), RecoverRule(prefix, st, presence))
    ensures Exclusive(DimPresenceRule(prefix, st, presence, group), RecoverRule(prefix, st, presence))
  {
    forall s ensures !(Matches(DimStatusRule(prefix, st, presence, group), s) && Matches(RecoverRule(prefix, st, presence), s))
      && !(Matches(DimPresenceRule(prefix, st, presence, group), s) && Matches(RecoverRule(prefix, st, presence), s))
    {
      DimRulesSpec(prefix, st, presence, group, s, map[]);
      RecoverRuleSpec(prefix, st, presence, s, map[]);
    }
  }

  /** Off and arm both need DIMMED and no presence and both write ARMED; off
      waits 30 seconds and switches the group off, arm waits for the group
      to be off and sends no command. */
  lemma OffArmSpec(prefix: string, st: SensorRef, presence: SensorRef, group: GroupRef, s: Snapshot, store: Store)
    ensures Matches(OffRule(prefix, st, presence, group), s) <==>
      !s.presence(presence) && StatusIs(s, st, LegacyDimmed) && s.stableFor(StatusAttr(st), OffDelay)
    ensures Matches(ArmRule(prefix, st, presence, group), s) <==>
      !s.presence(presence) && StatusIs(s, st, LegacyDimmed) && !s.anyOn(group)
    ensures Apply(OffRule(prefix, st, presence, group).actions, store) == store[st := LegacyArmed]
    ensures Apply(ArmRule(prefix, st, presence, group).actions, store) == store[st := LegacyArmed]
    ensures GroupCommands(OffRule(prefix, st, presence, group).actions) == [SetOn(group, false)]
    ensures GroupCommands(ArmRule(prefix, st, presence, group).actions) == []
  {
    var o, a := OffRule(prefix, st, presence, group), ArmRule(prefix, st, presence, group);
    MatchThree(o, s, o.conditions[0], o.conditions[1], o.conditions[2]);
    MatchThree(a, s, a.conditions[0], a.conditions[1], a.conditions[2]);
    ApplyTwo(o.actions[0], o.actions[1], store);
    ApplyOne(o.actions[0], store);
    ApplyOne(o.actions[1], store);
    ApplyOne(a.actions[0], store);
  }

  /** The status transitions the older state machine performs. */
  predicate LegacyTransition(from: int, to: int) {
    || (from == LegacyArmed && to == LegacyShouldTriggerScene)       // presence on, dark on
    || (from == LegacySceneTriggered && to == LegacyDimmed)          // dim status, dim presence
    || (from > LegacyShouldTriggerScene && to == LegacyShouldTriggerScene) // recover
    || (from == LegacyDimmed && to == LegacyArmed)                   // off, arm
  }

  /** Every base rule that matches moves the status along the table and
      writes no other virtual sensor; no base rule matches while the status
      is SHOULD_TRIGGER_SCENE, which is left to the scene-selection rules. */
  lemma LegacyBaseTransitions(prefix: string, st: SensorRef, presence: SensorRef, light: SensorRef, group: GroupRef,
                              s: Snapshot, i: nat)
    requires i < 7 && Matches(LegacyBaseRules(prefix, st, presence, light, group)[i], s)
    ensures st in s.status && s.status[st] != LegacyShouldTriggerScene
    ensures st in Apply(LegacyBaseRules(prefix, st, presence, light, group)[i].actions, s.status)
    ensures Apply(LegacyBaseRules(prefix, st, presence, light, group)[i].actions, s.status)
      == s.status[st := Apply(LegacyBaseRules(prefix, st, presence, light, group)[i].actions, s.status)[st]]
    ensures LegacyTransition(s.status[st], Apply(LegacyBaseRules(prefix, st, presence, light, group)[i].actions, s.status)[st])
  {
    var store := s.status;
    if i <= 1 { PresenceOnDarkOnSpec(prefix, st, presence, light, s, store); }
    else if i <= 3 { DimRulesSpec(prefix, st, presence, group, s, store); }
    else if i == 4 { RecoverRuleSpec(prefix, st, presence, s, store); }
    else { OffArmSpec(prefix, st, presence, group, s, store); }
  }

  // ---- The rooms' scene-selection rules ----

  /** "day and on": SHOULD_TRIGGER_SCENE, a status change and daylight. */
  function DayRule(prefix: string, st: SensorRef, daylight: SensorRef, scene: Action): Rule {
    Rule(prefix + " - day and on", true,
      [StatusEq(st, LegacyShouldTriggerScene), Changed(StatusAttr(st)), DaylightIs(daylight, true)],
      [scene, SetStatus(st, LegacySceneTriggered)])
  }

  /** "night and on" of kitchen and hallway: outside the late window, no daylight. */
  function NightRule(prefix: string, st: SensorRef, daylight: SensorRef, scene: Action): Rule {
    Rule(prefix + " - night and on", true,
      [StatusEq(st, LegacyShouldTriggerScene), Changed(StatusAttr(st)), LocalTimeNotIn(LateWindow),
       DaylightIs(daylight, false)],
      [scene, SetStatus(st, LegacySceneTriggered)])
  }

  /** "l8 night and on": inside the late window, no daylight. */
  function LateRule(prefix: string, st: SensorRef, daylight: SensorRef, scene: Action): Rule {
    Rule(prefix + " - l8 night and on", true,
      [StatusEq(st, LegacyShouldTriggerScene), Changed(StatusAttr(st)), LocalTimeIn(LateWindow),
       DaylightIs(daylight, false)],
      [scene, SetStatus(st, LegacySceneTriggered)])
  }

  /** The living room's "night and on": no daylight, no clock test. */
  function NightAnyTimeRule(prefix: string, st: SensorRef, daylight: SensorRef, scene: Action): Rule {
    Rule(prefix + " - night and on", true,
      [StatusEq(st, LegacyShouldTriggerScene), Changed(StatusAttr(st)), DaylightIs(daylight, false)],
      [scene, SetStatus(st, LegacySceneTriggered)])
  }

  function ThreeWay(prefix: string, st: SensorRef, daylight: SensorRef, day: Action, night: Action, late: Action): seq<Rule> {
    [DayRule(prefix, st, daylight, day), NightRule(prefix, st, daylight, night), LateRule(prefix, st, daylight, late)]
  }

  /** The scene a three-way room applies in each situation: the day scene in
      daylight, otherwise the late scene inside the window and the night
      scene outside it. */
  function ThreeWayChoice(daylight: bool, inLateWindow: bool, day: Action, night: Action, late: Action): Action {
    if daylight then day else if inLateWindow then late else night
  }

  /** SHOULD_TRIGGER_SCENE with a status change, the guard all the
      selection rules share. */
  predicate SelectionDue(s: Snapshot, st: SensorRef) {
    StatusIs(s, st, LegacyShouldTriggerScene) && s.changed(StatusAttr(st))
  }

  /** The guards of the three rules. */
  lemma ThreeWayGuards(prefix: string, st: SensorRef, daylight: SensorRef, day: Action, night: Action, late: Action,
                       s: Snapshot)
    ensures Matches(DayRule(prefix, st, daylight, day), s) <==> SelectionDue(s, st) && s.daylight(daylight)
    ensures Matches(NightRule(prefix, st, daylight, night), s) <==>
      SelectionDue(s, st) && !s.inWindow(LateWindow) && !s.daylight(daylight)
    ensures Matches(LateRule(prefix, st, daylight, late), s) <==>
      SelectionDue(s, st) && s.inWindow(LateWindow) && !s.daylight(daylight)
  {
    var d, n, l := DayRule(prefix, st, daylight, day), NightRule(prefix, st, daylight, night), LateRule(prefix, st, daylight, late);
    MatchThree(d, s, d.conditions[0], d.conditions[1], d.conditions[2]);
    MatchFour(n, s, n.conditions[0], n.conditions[1], n.conditions[2], n.conditions[3]);
    MatchFour(l, s, l.conditions[0], l.conditions[1], l.conditions[2], l.conditions[3]);
  }

  /** Exactly one of the three rules matches when a selection is due and
      none otherwise; the one that matches applies the scene ThreeWayChoice
      names and sets SCENE_TRIGGERED. */
  lemma ThreeWaySelection(prefix: string, st: SensorRef, daylight: SensorRef, day: Action, night: Action, late: Action,
                          s: Snapshot, store: Store)
    requires !day.SetStatus? && !night.SetStatus? && !late.SetStatus?
    ensures MatchCount(ThreeWay(prefix, st, daylight, day, night, late), s) == if SelectionDue(s, st) then 1 else 0
    ensures forall i | 0 <= i < 3 && Matches(ThreeWay(prefix, st, daylight, day, night, late)[i], s) ::
      && GroupCommands(ThreeWay(prefix, st, daylight, day, night, late)[i].actions)
           == [ThreeWayChoice(s.daylight(daylight), s.inWindow(LateWindow), day, night, late)]
      && Apply(ThreeWay(prefix, st, daylight, day, night, late)[i].actions, store) == store[st := LegacySceneTriggered]
  {
    var rs := ThreeWay(prefix, st, daylight, day, night, late);
    ThreeWayGuards(prefix, st, daylight, day, night, late, s);
    MatchCountThree(rs[0], rs[1], rs[2], s);
    CommandThenStatus(day, st, LegacySceneTriggered, store);
    CommandThenStatus(night, st, LegacySceneTriggered, store);
    CommandThenStatus(late, st, LegacySceneTriggered, store);
  }

  /** `setupKitchenSensorRules`: base rules on Kök, then day, night, late. */
  function LegacyKitchenRules(st: SensorRef, g: KnownGroups, ss: KnownSensors): seq<Rule> {
    LegacyBaseRules("Kitchen sensor", st, ss.kitchenPresence, ss.kitchenLightLevel, g.kok)
      + KitchenSelection(st, g, ss)
  }

  /** The late scene is written as the literal id "PzTl0lm1Xn4nzHM", which
      is the kitchen night-light scene. */
  function KitchenSelection(st: SensorRef, g: KnownGroups, ss: KnownSensors): seq<Rule> {
    ThreeWay("Kitchen sensor", st, ss.builtinDaylight,
      SetScene(g.kok, KitchenVeryBright, None), SetScene(g.kok, KitchenDimmed, None),
      SetScene(g.kok, "PzTl0lm1Xn4nzHM", None))
  }

  /** `setupHallwaySensorRules`: base rules on Hallway, then day, night, late;
      the night rule applies the semi-bright scene dimmed by -20. */
  function LegacyHallwayRules(st: SensorRef, g: KnownGroups, ss: KnownSensors): seq<Rule> {
    LegacyBaseRules("Hall sensor", st, ss.hallwayPresence, ss.hallwayLightLevel, g.hallway)
      + HallwaySelection(st, g, ss)
  }

  function HallwaySelection(st: SensorRef, g: KnownGroups, ss: KnownSensors): seq<Rule> {
    ThreeWay("Hall sensor", st, ss.builtinDaylight,
      SetScene(g.hallway, HallwaySemiBright, None), SetSceneBriInc(g.hallway, HallwaySemiBright, -20),
      SetScene(g.hallway, HallwayVeryDimmed, None))
  }

  /** The kitchen: very bright by day, dimmed at night, night light late;
      always on Kök. */
  lemma KitchenSelectionSpec(st: SensorRef, g: KnownGroups, ss: KnownSensors, s: Snapshot, store: Store)
    ensures MatchCount(KitchenSelection(st, g, ss), s) == if SelectionDue(s, st) then 1 else 0
    ensures forall i | 0 <= i < 3 && Matches(KitchenSelection(st, g, ss)[i], s) ::
      && GroupCommands(KitchenSelection(st, g, ss)[i].actions) ==
           [SetScene(g.kok,
              if s.daylight(ss.builtinDaylight) then KitchenVeryBright
              else if s.inWindow(LateWindow) then KitchenNightlight else KitchenDimmed, None)]
      && Apply(KitchenSelection(st, g, ss)[i].actions, store) == store[st := LegacySceneTriggered]
  {
    ThreeWaySelection("Kitchen sensor", st, ss.builtinDaylight,
      SetScene(g.kok, KitchenVeryBright, None), SetScene(g.kok, KitchenDimmed, None),
      SetScene(g.kok, "PzTl0lm1Xn4nzHM", None), s, store);
  }

  /** The hallway: semi-bright by day, the same scene dimmed by 20 at night,
      very dimmed late; always on Hallway. */
  lemma HallwaySelectionSpec(st: SensorRef, g: KnownGroups, ss: KnownSensors, s: Snapshot, store: Store)
    ensures MatchCount(HallwaySelection(st, g, ss), s) == if SelectionDue(s, st) then 1 else 0
    ensures forall i | 0 <= i < 3 && Matches(HallwaySelection(st, g, ss)[i], s) ::
      && GroupCommands(HallwaySelection(st, g, ss)[i].actions) ==
           [if s.daylight(ss.builtinDaylight) then SetScene(g.hallway, HallwaySemiBright, None)
            else if s.inWindow(LateWindow) then SetScene(g.hallway, HallwayVeryDimmed, None)
            else SetSceneBriInc(g.hallway, HallwaySemiBright, -20)]
      && Apply(HallwaySelection(st, g, ss)[i].actions, store) == store[st := LegacySceneTriggered]
  {
    ThreeWaySelection("Hall sensor", st, ss.builtinDaylight,
      SetScene(g.hallway, HallwaySemiBright, None), SetSceneBriInc(g.hallway, HallwaySemiBright, -20),
      SetScene(g.hallway, HallwayVeryDimmed, None), s, store);
  }

  /** `setupLivingroomSensorRules` as written: the day rule applies the
      living-room scene to the Hallway group. */
  function LegacyLivingroomRules(st: SensorRef, g: KnownGroups, ss: KnownSensors): seq<Rule> {
    LegacyBaseRules("LivRo sensor", st, ss.livingroomPresence, ss.livingroomLightLevel, g.livingRoom)
      + LivingroomSelection(st, g, ss, g.hallway)
  }

  /** The living room as evidently intended: both rules on Living room. */
  function LegacyLivingroomRulesIntended(st: SensorRef, g: KnownGroups, ss: KnownSensors): seq<Rule> {
    LegacyBaseRules("LivRo sensor", st, ss.livingroomPresence, ss.livingroomLightLevel, g.livingRoom)
      + LivingroomSelection(st, g, ss, g.livingRoom)
  }

  /** Day and night, with the day scene sent to `dayGroup`. */
  function LivingroomSelection(st: SensorRef, g: KnownGroups, ss: KnownSensors, dayGroup: GroupRef): seq<Rule> {
    [DayRule("LivRo sensor", st, ss.builtinDaylight, SetScene(dayGroup, LivingroomBright, None)),
     NightAnyTimeRule("LivRo sensor", st, ss.builtinDaylight, SetScene(g.livingRoom, LivingroomOsaka, None))]
  }

  /** Exactly one of the two living-room rules matches when a selection is
      due, whatever the clock: bright by day, Osaka at night. */
  lemma LivingroomSelectionSpec(st: SensorRef, g: KnownGroups, ss: KnownSensors, dayGroup: GroupRef, s: Snapshot)
    ensures MatchCount(LivingroomSelection(st, g, ss, dayGroup), s) == if SelectionDue(s, st) then 1 else 0
    ensures Matches(LivingroomSelection(st, g, ss, dayGroup)[0], s) <==> SelectionDue(s, st) && s.daylight(ss.builtinDaylight)
    ensures Matches(LivingroomSelection(st, g, ss, dayGroup)[1], s) <==> SelectionDue(s, st) && !s.daylight(ss.builtinDaylight)
    ensures GroupCommands(LivingroomSelection(st, g, ss, dayGroup)[0].actions) == [SetScene(dayGroup, LivingroomBright, None)]
    ensures GroupCommands(LivingroomSelection(st, g, ss, dayGroup)[1].actions) == [SetScene(g.livingRoom, LivingroomOsaka, None)]
  {
    var rs := LivingroomSelection(st, g, ss, dayGroup);
    LegacyLivingroomGuards(st, g, ss, dayGroup, s);
    MatchCountTwo(rs[0], rs[1], s);
    LivingroomSelectionCommands(st, g, ss, dayGroup);
  }

  /** The commands of the two living-room rules: the bright scene to
      `dayGroup`, Osaka to Living room. */
  lemma LivingroomSelectionCommands(st: SensorRef, g: KnownGroups, ss: KnownSensors, dayGroup: GroupRef)
    ensures GroupCommands(LivingroomSelection(st, g, ss, dayGroup)[0].actions) == [SetScene(dayGroup, LivingroomBright, None)]
    ensures GroupCommands(LivingroomSelection(st, g, ss, dayGroup)[1].actions) == [SetScene(g.livingRoom, LivingroomOsaka, None)]
  {
    CommandThenStatus(SetScene(dayGroup, LivingroomBright, None), st, LegacySceneTriggered, map[]);
    CommandThenStatus(SetScene(g.livingRoom, LivingroomOsaka, None), st, LegacySceneTriggered, map[]);
  }

  lemma LegacyLivingroomGuards(st: SensorRef, g: KnownGroups, ss: KnownSensors, dayGroup: GroupRef, s: Snapshot)
    ensures Matches(LivingroomSelection(st, g, ss, dayGroup)[0], s) <==> SelectionDue(s, st) && s.daylight(ss.builtinDaylight)
    ensures Matches(LivingroomSelection(st, g, ss, dayGroup)[1], s) <==> SelectionDue(s, st) && !s.daylight(ss.builtinDaylight)
  {
    var rs := LivingroomSelection(st, g, ss, dayGroup);
    MatchThree(rs[0], s, rs[0].conditions[0], rs[0].conditions[1], rs[0].conditions[2]);
    MatchThree(rs[1], s, rs[1].conditions[0], rs[1].conditions[1], rs[1].conditions[2]);
  }

  /** As written, a daytime selection in the living room sends its scene to
      the Hallway group and commands nothing on Living room. */
  lemma LivingroomDaySceneMisdirected(st: SensorRef, g: KnownGroups, ss: KnownSensors, s: Snapshot)
    requires g.hallway != g.livingRoom
    requires SelectionDue(s, st) && s.daylight(ss.builtinDaylight)
    ensures Matches(LegacyLivingroomRules(st, g, ss)[7], s)
    ensures GroupCommands(LegacyLivingroomRules(st, g, ss)[7].actions) == [SetScene(g.hallway, LivingroomBright, None)]
    ensures forall a | a in GroupCommands(LegacyLivingroomRules(st, g, ss)[7].actions) :: a.group != g.livingRoom
  {
    LivingroomSelectionSpec(st, g, ss, g.hallway, s);
    assert LegacyLivingroomRules(st, g, ss)[7] == LivingroomSelection(st, g, ss, g.hallway)[0];
  }

  /** As intended, every scene command of the living-room selection rules
      addresses Living room. */
  lemma LivingroomIntendedTargetsLivingRoom(st: SensorRef, g: KnownGroups, ss: KnownSensors, i: nat)
    requires 7 <= i < |LegacyLivingroomRulesIntended(st, g, ss)|
    ensures GroupCommands(LegacyLivingroomRulesIntended(st, g, ss)[i].actions)
      == [SetScene(g.livingRoom, if i == 7 then LivingroomBright else LivingroomOsaka, None)]
    ensures forall a | a in GroupCommands(LegacyLivingroomRulesIntended(st, g, ss)[i].actions) :: a.SetScene? && a.group == g.livingRoom
  {
    LivingroomSelectionCommands(st, g, ss, g.livingRoom);
    assert LegacyLivingroomRulesIntended(st, g, ss)[i] == LivingroomSelection(st, g, ss, g.livingRoom)[i - 7];
  }

  /** The three room status sensors of the older `run`, created in the
      order kitchen, hallway, living room, each starting ARMED. */
  method SetupLegacyStatusSensors(r: Registry) returns (kitchen: ClipSensor, hallway: ClipSensor, livingroom: ClipSensor)
    modifies r
    ensures r.sensorIdIndex == old(r.sensorIdIndex) + 3
    ensures kitchen.name == "kitchen sensor status" && kitchen.status == LegacyArmed
    ensures hallway.name == "hallway sensor status" && hallway.status == LegacyArmed
    ensures livingroom.name == "livingroom sensor status" && livingroom.status == LegacyArmed
    ensures kitchen.uniqueid == UniqueId(r.prefix, old(r.sensorIdIndex))
    ensures hallway.uniqueid == UniqueId(r.prefix, old(r.sensorIdIndex) + 1)
    ensures livingroom.uniqueid == UniqueId(r.prefix, old(r.sensorIdIndex) + 2)
    ensures kitchen.manufacturername == hallway.manufacturername == livingroom.manufacturername == Manufacturer
  {
    kitchen := r.SetupStatusSensor("kitchen sensor status", LegacyArmed);
    hallway := r.SetupStatusSensor("hallway sensor status", LegacyArmed);
    livingroom := r.SetupStatusSensor("livingroom sensor status", LegacyArmed);
  }
}
