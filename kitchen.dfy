/** The kitchen's scene-selection rules of src/rooms/kitchen.ts: once the
    motion state machine plans the group on, one of three rules picks the
    scene from daylight and the late-night flag. The base rules are taken as
    given (see the README on the base-rule arguments). */
module Kitchen {
  import opened Rules
  import opened Variables
  import opened Resources
  import opened MotionBaseRules

  const Prefix: string := "Kitchen sensor"

  function DayRule(st: SensorRef, g: KnownGroups, ss: KnownSensors): Rule {
    Rule(Prefix + " - day and on", false,
      [StatusEq(st, ShouldTriggerScene), StatusChanged(st), DaylightIs(ss.builtinDaylight, true)],
      [SetScene(g.kok, KitchenVeryBright, Some(SetSceneTransition)), SetStatus(st, SceneTriggered)])
  }

  function NightRule(st: SensorRef, late: SensorRef, g: KnownGroups, ss: KnownSensors): Rule {
    Rule(Prefix + " - night and on", false,
      [StatusEq(st, ShouldTriggerScene), StatusChanged(st), StatusEq(late, NotLateNight),
       DaylightIs(ss.builtinDaylight, false)],
      [SetScene(g.kok, KitchenDimmed, Some(SetSceneTransition)), SetStatus(st, SceneTriggered)])
  }

  function LateRule(st: SensorRef, late: SensorRef, g: KnownGroups, ss: KnownSensors): Rule {
    Rule(Prefix + " - l8 night and on", false,
      [StatusEq(st, ShouldTriggerScene), StatusChanged(st), StatusEq(late, IsLateNight),
       DaylightIs(ss.builtinDaylight, false)],
      [SetScene(g.kok, KitchenNightlight, Some(SetSceneTransition)), SetStatus(st, SceneTriggered)])
  }

  function KitchenSelection(st: SensorRef, late: SensorRef, g: KnownGroups, ss: KnownSensors): seq<Rule> {
    [DayRule(st, g, ss), NightRule(st, late, g, ss), LateRule(st, late, g, ss)]
  }

  /** `kitchenRules`: the base rules, then day, night and late. */
  function KitchenRules(base: seq<Rule>, st: SensorRef, late: SensorRef, g: KnownGroups, ss: KnownSensors): (rs: seq<Rule>)
    ensures |rs| == |base| + 3 && rs[..|base|] == base
    ensures rs[|base|..] == KitchenSelection(st, late, g, ss)
  {
    base + KitchenSelection(st, late, g, ss)
  }

  /** The scene the kitchen should show: very bright by day, the night light
      late at night, dimmed otherwise. */
  function KitchenScene(daylight: bool, lateNight: bool): SceneId {
    if daylight then KitchenVeryBright else if lateNight then KitchenNightlight else KitchenDimmed
  }

  /** Each rule's guard, and what a matching rule does: the scene
      KitchenScene names on Kök with the set-scene transition, then
      SCENE_TRIGGERED. No rule matches unless a scene is planned. */
  lemma KitchenSelectionSpec(st: SensorRef, late: SensorRef, g: KnownGroups, ss: KnownSensors, s: Snapshot, store: Store)
    ensures Matches(DayRule(st, g, ss), s) <==> ScenePlanned(s, st) && s.daylight(ss.builtinDaylight)
    ensures Matches(NightRule(st, late, g, ss), s) <==>
      ScenePlanned(s, st) && StatusIs(s, late, NotLateNight) && !s.daylight(ss.builtinDaylight)
    ensures Matches(LateRule(st, late, g, ss), s) <==>
      ScenePlanned(s, st) && StatusIs(s, late, IsLateNight) && !s.daylight(ss.builtinDaylight)
    ensures forall i | 0 <= i < 3 && Matches(KitchenSelection(st, late, g, ss)[i], s) ::
      && GroupCommands(KitchenSelection(st, late, g, ss)[i].actions)
           == [SetScene(g.kok, KitchenScene(s.daylight(ss.builtinDaylight), StatusIs(s, late, IsLateNight)), Some(0))]
      && Apply(KitchenSelection(st, late, g, ss)[i].actions, store) == store[st := SceneTriggered]
  {
    KitchenGuards(st, late, g, ss, s);
    CommandThenStatus(SetScene(g.kok, KitchenVeryBright, Some(SetSceneTransition)), st, SceneTriggered, store);
    CommandThenStatus(SetScene(g.kok, KitchenDimmed, Some(SetSceneTransition)), st, SceneTriggered, store);
    CommandThenStatus(SetScene(g.kok, KitchenNightlight, Some(SetSceneTransition)), st, SceneTriggered, store);
  }

  /** The three guards, one rule at a time. */
  lemma KitchenGuards(st: SensorRef, late: SensorRef, g: KnownGroups, ss: KnownSensors, s: Snapshot)
    ensures Matches(DayRule(st, g, ss), s) <==> ScenePlanned(s, st) && s.daylight(ss.builtinDaylight)
    ensures Matches(NightRule(st, late, g, ss), s) <==>
      ScenePlanned(s, st) && StatusIs(s, late, NotLateNight) && !s.daylight(ss.builtinDaylight)
    ensures Matches(LateRule(st, late, g, ss), s) <==>
      ScenePlanned(s, st) && StatusIs(s, late, IsLateNight) && !s.daylight(ss.builtinDaylight)
  {
    var d, n, l := DayRule(st, g, ss), NightRule(st, late, g, ss), LateRule(st, late, g, ss);
    MatchThree(d, s, d.conditions[0], d.conditions[1], d.conditions[2]);
    MatchFour(n, s, n.conditions[0], n.conditions[1], n.conditions[2], n.conditions[3]);
    MatchFour(l, s, l.conditions[0], l.conditions[1], l.conditions[2], l.conditions[3]);
  }

  /** At most one selection rule matches, and when a scene is planned and
      the late-night flag holds one of its two values, exactly one does. */
  lemma KitchenSelectionExactlyOne(st: SensorRef, late: SensorRef, g: KnownGroups, ss: KnownSensors, s: Snapshot)
    ensures MatchCount(KitchenSelection(st, late, g, ss), s) <= 1
    ensures ScenePlanned(s, st) && (StatusIs(s, late, NotLateNight) || StatusIs(s, late, IsLateNight)) ==>
      MatchCount(KitchenSelection(st, late, g, ss), s) == 1
  {
    KitchenGuards(st, late, g, ss, s);
    MatchCountThree(DayRule(st, g, ss), NightRule(st, late, g, ss), LateRule(st, late, g, ss), s);
  }

  /** The day rule does not look at the late-night flag. */
  lemma KitchenDayIgnoresLateNight(st: SensorRef, late: SensorRef, g: KnownGroups, ss: KnownSensors, s: Snapshot, v: int)
    requires late != st
    ensures Matches(DayRule(st, g, ss), s) <==> Matches(DayRule(st, g, ss), s.(status := s.status[late := v]))
  {
    KitchenGuards(st, late, g, ss, s);
    KitchenGuards(st, late, g, ss, s.(status := s.status[late := v]));
  }
}
