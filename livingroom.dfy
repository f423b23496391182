/** The living room's scene-selection rules of src/rooms/livingroom.ts:
    bright by day whatever the activity; at night the scene follows the
    activity (NORMAL or RELAX) and there is no late-night distinction. */
module Livingroom {
  import opened Rules
  import opened Variables
  import opened Resources
  import opened MotionBaseRules

  const Prefix: string := "LivRo sensor"

  function DayRule(st: SensorRef, g: KnownGroups, ss: KnownSensors): Rule {
    Rule(Prefix + " - day and on", false,
      [StatusEq(st, ShouldTriggerScene), StatusChanged(st), DaylightIs(ss.builtinDaylight, true)],
      [SetScene(g.livingRoom, LivingroomBright, Some(SetSceneTransition)), SetStatus(st, SceneTriggered)])
  }

  function NightNormalRule(st: SensorRef, activity: SensorRef, g: KnownGroups, ss: KnownSensors): Rule {
    Rule(Prefix + " - night and on N", false,
      [StatusEq(st, ShouldTriggerScene), StatusEq(activity, Normal), StatusChanged(st),
       DaylightIs(ss.builtinDaylight, false)],
      [SetScene(g.livingRoom, LivingroomOsaka, Some(SetSceneTransition)), SetStatus(st, SceneTriggered)])
  }

  function NightRelaxRule(st: SensorRef, activity: SensorRef, g: KnownGroups, ss: KnownSensors): Rule {
    Rule(Prefix + " - night and on R", false,
      [StatusEq(st, ShouldTriggerScene), StatusEq(activity, Relax), StatusChanged(st),
       DaylightIs(ss.builtinDaylight, false)],
      [SetScene(g.livingRoom, LivingroomRelax, Some(SetSceneTransition)), SetStatus(st, SceneTriggered)])
  }

  function LivingroomSelection(st: SensorRef, activity: SensorRef, g: KnownGroups, ss: KnownSensors): seq<Rule> {
    [DayRule(st, g, ss), NightNormalRule(st, activity, g, ss), NightRelaxRule(st, activity, g, ss)]
  }

  /** `setupLivingroomSensorRules`: the base rules, then day, N and R. */
  function LivingroomRules(base: seq<Rule>, st: SensorRef, activity: SensorRef, g: KnownGroups, ss: KnownSensors): (rs: seq<Rule>)
    ensures |rs| == |base| + 3 && rs[..|base|] == base
    ensures rs[|base|..] == LivingroomSelection(st, activity, g, ss)
  {
    base + LivingroomSelection(st, activity, g, ss)
  }

  /** Each rule's guard, and what a matching rule does: a scene on Living
      room with the set-scene transition, then SCENE_TRIGGERED. */
  lemma LivingroomSelectionSpec(st: SensorRef, activity: SensorRef, g: KnownGroups, ss: KnownSensors, s: Snapshot, store: Store)
    ensures Matches(DayRule(st, g, ss), s) <==> ScenePlanned(s, st) && s.daylight(ss.builtinDaylight)
    ensures Matches(NightNormalRule(st, activity, g, ss), s) <==>
      ScenePlanned(s, st) && StatusIs(s, activity, Normal) && !s.daylight(ss.builtinDaylight)
    ensures Matches(NightRelaxRule(st, activity, g, ss), s) <==>
      ScenePlanned(s, st) && StatusIs(s, activity, Relax) && !s.daylight(ss.builtinDaylight)
    ensures GroupCommands(DayRule(st, g, ss).actions) == [SetScene(g.livingRoom, LivingroomBright, Some(0))]
    ensures GroupCommands(NightNormalRule(st, activity, g, ss).actions) == [SetScene(g.livingRoom, LivingroomOsaka, Some(0))]
    ensures GroupCommands(NightRelaxRule(st, activity, g, ss).actions) == [SetScene(g.livingRoom, LivingroomRelax, Some(0))]
    ensures forall i | 0 <= i < 3 :: Apply(LivingroomSelection(st, activity, g, ss)[i].actions, store) == store[st := SceneTriggered]
  {
    LivingroomGuards(st, activity, g, ss, s);
    CommandThenStatus(SetScene(g.livingRoom, LivingroomBright, Some(SetSceneTransition)), st, SceneTriggered, store);
    CommandThenStatus(SetScene(g.livingRoom, LivingroomOsaka, Some(SetSceneTransition)), st, SceneTriggered, store);
    CommandThenStatus(SetScene(g.livingRoom, LivingroomRelax, Some(SetSceneTransition)), st, SceneTriggered, store);
  }

  /** The three guards, one rule at a time. */
  lemma LivingroomGuards(st: SensorRef, activity: SensorRef, g: KnownGroups, ss: KnownSensors, s: Snapshot)
    ensures Matches(DayRule(st, g, ss), s) <==> ScenePlanned(s, st) && s.daylight(ss.builtinDaylight)
    ensures Matches(NightNormalRule(st, activity, g, ss), s) <==>
      ScenePlanned(s, st) && StatusIs(s, activity, Normal) && !s.daylight(ss.builtinDaylight)
    ensures Matches(NightRelaxRule(st, activity, g, ss), s) <==>
      ScenePlanned(s, st) && StatusIs(s, activity, Relax) && !s.daylight(ss.builtinDaylight)
  {
    var d, n, r := DayRule(st, g, ss), NightNormalRule(st, activity, g, ss), NightRelaxRule(st, activity, g, ss);
    MatchThree(d, s, d.conditions[0], d.conditions[1], d.conditions[2]);
    MatchFour(n, s, n.conditions[0], n.conditions[1], n.conditions[2], n.conditions[3]);
    MatchFour(r, s, r.conditions[0], r.conditions[1], r.conditions[2], r.conditions[3]);
  }

  /** At most one selection rule matches. When a scene is planned, exactly
      one matches by day, and at night exactly one when the activity is
      NORMAL or RELAX and none for any other activity. */
  lemma LivingroomSelectionCount(st: SensorRef, activity: SensorRef, g: KnownGroups, ss: KnownSensors, s: Snapshot)
    ensures MatchCount(LivingroomSelection(st, activity, g, ss), s) <= 1
    ensures ScenePlanned(s, st) && s.daylight(ss.builtinDaylight) ==>
      MatchCount(LivingroomSelection(st, activity, g, ss), s) == 1
    ensures ScenePlanned(s, st) && !s.daylight(ss.builtinDaylight) ==>
      (MatchCount(LivingroomSelection(st, activity, g, ss), s) == 1 <==>
       StatusIs(s, activity, Normal) || StatusIs(s, activity, Relax))
  {
    LivingroomGuards(st, activity, g, ss, s);
    MatchCountThree(DayRule(st, g, ss), NightNormalRule(st, activity, g, ss), NightRelaxRule(st, activity, g, ss), s);
  }

  /** By day the activity does not matter: whatever value the activity
      sensor holds, the day rule matches alike and applies the bright scene. */
  lemma LivingroomDayIgnoresActivity(st: SensorRef, activity: SensorRef, g: KnownGroups, ss: KnownSensors, s: Snapshot, v: int)
    requires activity != st
    ensures Matches(DayRule(st, g, ss), s) <==> Matches(DayRule(st, g, ss), s.(status := s.status[activity := v]))
  {
    LivingroomGuards(st, activity, g, ss, s);
    LivingroomGuards(st, activity, g, ss, s.(status := s.status[activity := v]));
  }

  /** No rule looks at the clock or at any status other than the room's and
      the activity: changing the local time or another sensor (a late-night
      flag, say) changes no match. */
  lemma LivingroomNoLateNight(st: SensorRef, activity: SensorRef, g: KnownGroups, ss: KnownSensors,
                              s: Snapshot, other: SensorRef, v: int, clock: TimeWindow -> bool)
    requires other != st && other != activity
    ensures forall i | 0 <= i < 3 ::
      Matches(LivingroomSelection(st, activity, g, ss)[i], s) <==>
      Matches(LivingroomSelection(st, activity, g, ss)[i], s.(status := s.status[other := v], inWindow := clock))
  {
    LivingroomGuards(st, activity, g, ss, s);
    LivingroomGuards(st, activity, g, ss, s.(status := s.status[other := v], inWindow := clock));
  }
}
