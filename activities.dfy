/** Activity-driven scene selection of src/activities.ts: for every activity
    three rules choose the scene `activity_scenes[activity][cycle]` once the
    motion state machine plans the group on and no scene has been set in
    this period yet; `activitiesRules` appends them, activity by activity,
    to the room's base rules. */
module Activities {
  import opened Strings
  import opened Rules
  import opened Variables
  import opened Resources
  import opened MotionBaseRules

  /** The parameters of `activitiesRules`: those it hands to the base rules
      (the room is the base rules' group) and the three it adds. */
  datatype ActivitiesParams = ActivitiesParams(
    base: BaseParams,
    lateNight: SensorRef,
    activityVar: SensorRef,
    daylight: SensorRef)

  /** The activities in the order `activitiesRules` visits them. */
  const ActivityOrder: seq<int> := [Focus, Normal, Dinner, Relax, Tv]

  /** `${prefix} A${activity}` followed by the rule's own suffix. */
  function ActivityRuleName(c: ActivitiesParams, a: int, suffix: string): string {
    c.base.prefix + " A" + IntToString(a) + suffix
  }

  function SelectionActions(c: ActivitiesParams, scene: SceneId): seq<Action> {
    [SetScene(c.base.group, scene, Some(SetSceneTransition)),
     SetStatus(c.base.sceneSetVar, SceneWasSet),
     SetStatus(c.base.statusVar, GroupOn)]
  }

  function ActivityDayRule(c: ActivitiesParams, scenes: ActivityScenes, a: int): Rule {
    Rule(ActivityRuleName(c, a, " day and on"), false,
      [StatusEq(c.base.statusVar, PlanGroupOn), StatusEq(c.activityVar, a),
       StatusLt(c.base.sceneSetVar, SceneWasSet), StatusChanged(c.base.statusVar),
       DaylightIs(c.daylight, true)],
      SelectionActions(c, scenes(a, Day)))
  }

  function ActivityNightRule(c: ActivitiesParams, scenes: ActivityScenes, a: int): Rule {
    Rule(ActivityRuleName(c, a, " night and on"), false,
      [StatusEq(c.base.statusVar, PlanGroupOn), StatusEq(c.activityVar, a),
       StatusLt(c.base.sceneSetVar, SceneWasSet), StatusChanged(c.base.statusVar),
       StatusEq(c.lateNight, NotLateNight), DaylightIs(c.daylight, false)],
      SelectionActions(c, scenes(a, EarlyNight)))
  }

  function ActivityLateRule(c: ActivitiesParams, scenes: ActivityScenes, a: int): Rule {
    Rule(ActivityRuleName(c, a, " l8 night and on"), false,
      [StatusEq(c.base.statusVar, PlanGroupOn), StatusEq(c.activityVar, a),
       StatusLt(c.base.sceneSetVar, SceneWasSet), StatusChanged(c.base.statusVar),
       StatusEq(c.lateNight, IsLateNight), DaylightIs(c.daylight, false)],
      SelectionActions(c, scenes(a, LateNight)))
  }

  /** `activityRule`: day, night and late for one activity. */
  function ActivityRule(c: ActivitiesParams, scenes: ActivityScenes, a: int): seq<Rule> {
    [ActivityDayRule(c, scenes, a), ActivityNightRule(c, scenes, a), ActivityLateRule(c, scenes, a)]
  }

  /** The shared guard: a scene is planned for activity a and none has been
      set in this period. */
  predicate SelectionOpen(c: ActivitiesParams, s: Snapshot, a: int) {
    && ScenePlanned(s, c.base.statusVar)
    && StatusIs(s, c.activityVar, a)
    && c.base.sceneSetVar in s.status && s.status[c.base.sceneSetVar] < SceneWasSet
  }

  /** The period of day: daylight first, then the late-night flag. */
  function CycleOf(daylight: bool, lateNight: bool): DayCycle {
    if daylight then Day else if lateNight then LateNight else EarlyNight
  }

  /** A selection rule's actions: the scene on the room with the set-scene
      transition, then the flag WAS_SET and the status GROUP_ON. */
  lemma SelectionActionsSpec(c: ActivitiesParams, scene: SceneId, store: Store)
    ensures GroupCommands(SelectionActions(c, scene)) == [SetScene(c.base.group, scene, Some(0))]
    ensures Apply(SelectionActions(c, scene), store) == store[c.base.sceneSetVar := SceneWasSet][c.base.statusVar := GroupOn]
  {
    var acts := SelectionActions(c, scene);
    ApplyThree(acts[0], acts[1], acts[2], store);
    ApplyOne(acts[0], store);
    ApplyOne(acts[1], store);
    ApplyOne(acts[2], store);
  }

  /** The guards of the three selection rules of activity a. */
  lemma ActivityGuards(c: ActivitiesParams, scenes: ActivityScenes, a: int, s: Snapshot)
    ensures Matches(ActivityDayRule(c, scenes, a), s) <==> SelectionOpen(c, s, a) && s.daylight(c.daylight)
    ensures Matches(ActivityNightRule(c, scenes, a), s) <==>
      SelectionOpen(c, s, a) && StatusIs(s, c.lateNight, NotLateNight) && !s.daylight(c.daylight)
    ensures Matches(ActivityLateRule(c, scenes, a), s) <==>
      SelectionOpen(c, s, a) && StatusIs(s, c.lateNight, IsLateNight) && !s.daylight(c.daylight)
  {
    DayGuard(c, scenes, a, s);
    NightGuard(c, scenes, a, s);
    LateGuard(c, scenes, a, s);
  }

  lemma DayGuard(c: ActivitiesParams, scenes: ActivityScenes, a: int, s: Snapshot)
    ensures Matches(ActivityDayRule(c, scenes, a), s) <==> SelectionOpen(c, s, a) && s.daylight(c.daylight)
  {
    var d := ActivityDayRule(c, scenes, a);
    MatchFive(d, s, d.conditions[0], d.conditions[1], d.conditions[2], d.conditions[3], d.conditions[4]);
  }

  lemma NightGuard(c: ActivitiesParams, scenes: ActivityScenes, a: int, s: Snapshot)
    ensures Matches(ActivityNightRule(c, scenes, a), s) <==>
      SelectionOpen(c, s, a) && StatusIs(s, c.lateNight, NotLateNight) && !s.daylight(c.daylight)
  {
    var n := ActivityNightRule(c, scenes, a);
    MatchSix(n, s, n.conditions[0], n.conditions[1], n.conditions[2], n.conditions[3], n.conditions[4], n.conditions[5]);
  }

  lemma LateGuard(c: ActivitiesParams, scenes: ActivityScenes, a: int, s: Snapshot)
    ensures Matches(ActivityLateRule(c, scenes, a), s) <==>
      SelectionOpen(c, s, a) && StatusIs(s, c.lateNight, IsLateNight) && !s.daylight(c.daylight)
  {
    var l := ActivityLateRule(c, scenes, a);
    MatchSix(l, s, l.conditions[0], l.conditions[1], l.conditions[2], l.conditions[3], l.conditions[4], l.conditions[5]);
  }

  /** What a matching selection rule does: the activity's scene for the
      period CycleOf names, then WAS_SET and GROUP_ON. */
  lemma ActivityRuleSpec(c: ActivitiesParams, scenes: ActivityScenes, a: int, s: Snapshot, store: Store)
    ensures forall i | 0 <= i < 3 && Matches(ActivityRule(c, scenes, a)[i], s) ::
      && GroupCommands(ActivityRule(c, scenes, a)[i].actions)
           == [SetScene(c.base.group, scenes(a, CycleOf(s.daylight(c.daylight), StatusIs(s, c.lateNight, IsLateNight))), Some(0))]
      && Apply(ActivityRule(c, scenes, a)[i].actions, store)
           == store[c.base.sceneSetVar := SceneWasSet][c.base.statusVar := GroupOn]
  {
    ActivityGuards(c, scenes, a, s);
    SelectionActionsSpec(c, scenes(a, Day), store);
    SelectionActionsSpec(c, scenes(a, EarlyNight), store);
    SelectionActionsSpec(c, scenes(a, LateNight), store);
  }

  /** The three rules of one activity are pairwise exclusive; when the
      shared guard holds and the late-night flag holds one of its two
      values, exactly one of them matches. */
  lemma ActivityRuleExactlyOne(c: ActivitiesParams, scenes: ActivityScenes, a: int, s: Snapshot)
    ensures MatchCount(ActivityRule(c, scenes, a), s) <= 1
    ensures SelectionOpen(c, s, a) && (StatusIs(s, c.lateNight, NotLateNight) || StatusIs(s, c.lateNight, IsLateNight)) ==>
      MatchCount(ActivityRule(c, scenes, a), s) == 1
  {
    ActivityGuards(c, scenes, a, s);
    MatchCountThree(ActivityDayRule(c, scenes, a), ActivityNightRule(c, scenes, a), ActivityLateRule(c, scenes, a), s);
  }

  /** No rule of an activity matches unless the activity sensor holds that
      activity; so rules of distinct activities never match together. */
  lemma ActivityRuleNeedsActivity(c: ActivitiesParams, scenes: ActivityScenes, a: int, s: Snapshot)
    requires !StatusIs(s, c.activityVar, a)
    ensures MatchCount(ActivityRule(c, scenes, a), s) == 0
  {
    ActivityGuards(c, scenes, a, s);
    MatchCountThree(ActivityDayRule(c, scenes, a), ActivityNightRule(c, scenes, a), ActivityLateRule(c, scenes, a), s);
  }

  lemma DistinctActivitiesExclusive(c: ActivitiesParams, scenes: ActivityScenes, a: int, b: int, i: nat, j: nat)
    requires a != b && i < 3 && j < 3
    ensures Exclusive(ActivityRule(c, scenes, a)[i], ActivityRule(c, scenes, b)[j])
  {
    forall s ensures !(Matches(ActivityRule(c, scenes, a)[i], s) && Matches(ActivityRule(c, scenes, b)[j], s)) {
      ActivityGuards(c, scenes, a, s);
      ActivityGuards(c, scenes, b, s);
    }
  }

  /** Once the flag is WAS_SET no selection rule matches, and because SET
      and WAS_SET are the same code, the base rules' group on recover then
      takes over: the two never match together. */
  lemma SelectionYieldsToRecover(c: ActivitiesParams, scenes: ActivityScenes, a: int, i: nat, s: Snapshot)
    requires i < 3
    ensures StatusIs(s, c.base.sceneSetVar, SceneWasSet) ==> !Matches(ActivityRule(c, scenes, a)[i], s)
    ensures StatusIs(s, c.base.sceneSetVar, SceneWasSet) ==>
      (Matches(GroupOnRecoverRule(c.base), s) <==> ScenePlanned(s, c.base.statusVar))
    ensures !(Matches(ActivityRule(c, scenes, a)[i], s) && Matches(GroupOnRecoverRule(c.base), s))
  {
    ActivityGuards(c, scenes, a, s);
    GroupOnRecoverRuleSpec(c.base, s, map[]);
  }

  /** The rules the loop of `activitiesRules` appends for `acts`, in order. */
  function ActivitySelection(c: ActivitiesParams, scenes: ActivityScenes, acts: seq<int>): (rs: seq<Rule>)
    ensures |rs| == 3 * |acts|
    decreases |acts|
  {
    if acts == [] then []
    else ActivitySelection(c, scenes, acts[..|acts| - 1]) + ActivityRule(c, scenes, acts[|acts| - 1])
  }

  /** Among the selection rules of distinct activities, the ones that can
      match are those of the activity the sensor holds. */
  lemma {:induction false} ActivitySelectionCount(c: ActivitiesParams, scenes: ActivityScenes, acts: seq<int>, s: Snapshot)
    requires forall i, j | 0 <= i < j < |acts| :: acts[i] != acts[j]
    ensures MatchCount(ActivitySelection(c, scenes, acts), s) ==
      if c.activityVar in s.status && s.status[c.activityVar] in acts
      then MatchCount(ActivityRule(c, scenes, s.status[c.activityVar]), s) else 0
    decreases |acts|
  {
    if acts != [] {
      var init, last := acts[..|acts| - 1], acts[|acts| - 1];
      ActivitySelectionCount(c, scenes, init, s);
      SelectionStep(c, scenes, acts, s);
      InInitOrLast(acts);
      if StatusIs(s, c.activityVar, last) {
        assert last !in init;
        assert MatchCount(ActivitySelection(c, scenes, init), s) == 0;
      } else {
        ActivityRuleNeedsActivity(c, scenes, last, s);
        assert MatchCount(ActivitySelection(c, scenes, acts), s) == MatchCount(ActivitySelection(c, scenes, init), s);
      }
    }
  }

  /** A list holds exactly its last element and what comes before it. */
  lemma InInitOrLast<T>(xs: seq<T>)
    requires xs != []
    ensures forall x :: x in xs <==> x in xs[..|xs| - 1] || x == xs[|xs| - 1]
  {
    assert xs == xs[..|xs| - 1] + [xs[|xs| - 1]];
  }

  /** One activity more adds the count of its own rules. */
  lemma SelectionStep(c: ActivitiesParams, scenes: ActivityScenes, acts: seq<int>, s: Snapshot)
    requires acts != []
    ensures MatchCount(ActivitySelection(c, scenes, acts), s) ==
      MatchCount(ActivitySelection(c, scenes, acts[..|acts| - 1]), s) + MatchCount(ActivityRule(c, scenes, acts[|acts| - 1]), s)
  {
    MatchCountAppend(ActivitySelection(c, scenes, acts[..|acts| - 1]), ActivityRule(c, scenes, acts[|acts| - 1]), s);
  }

  /** Over all five activities at most one selection rule matches, and
      exactly one when a scene is planned, none has been set in this period,
      the activity is one of the five and the late-night flag is valid. */
  lemma ActivitiesSelectionExactlyOne(c: ActivitiesParams, scenes: ActivityScenes, s: Snapshot)
    ensures MatchCount(ActivitySelection(c, scenes, ActivityOrder), s) <= 1
    ensures ((exists k | 0 <= k < |ActivityOrder| :: SelectionOpen(c, s, ActivityOrder[k]))
      && (StatusIs(s, c.lateNight, NotLateNight) || StatusIs(s, c.lateNight, IsLateNight))) ==>
      MatchCount(ActivitySelection(c, scenes, ActivityOrder), s) == 1
  {
    ActivitySelectionCount(c, scenes, ActivityOrder, s);
    if c.activityVar in s.status {
      ActivityRuleExactlyOne(c, scenes, s.status[c.activityVar], s);
    }
  }

  /** `activitiesRules`: the base rules, then one `activityRule` per
      activity, in ActivityOrder. */
  method ActivitiesRules(c: ActivitiesParams, scenes: ActivityScenes) returns (rules: seq<Rule>)
    ensures rules == MotionSensorBaseRules(c.base) + ActivitySelection(c, scenes, ActivityOrder)
    ensures |rules| == 24
  {
    ghost var base := MotionSensorBaseRules(c.base);
    rules := MotionSensorBaseRules(c.base);
    var activities := ActivityOrder;
    for i := 0 to |activities|
      invariant rules == base + ActivitySelection(c, scenes, activities[..i])
    {
      SelectionExtend(c, scenes, base, activities, i);
      rules := rules + ActivityRule(c, scenes, activities[i]);
    }
    assert activities[..|activities|] == ActivityOrder;
  }

  /** The rules after `base` for one more activity of the list. */
  lemma SelectionExtend(c: ActivitiesParams, scenes: ActivityScenes, base: seq<Rule>, acts: seq<int>, i: nat)
    requires i < |acts|
    ensures base + ActivitySelection(c, scenes, acts[..i + 1])
      == (base + ActivitySelection(c, scenes, acts[..i])) + ActivityRule(c, scenes, acts[i])
  {
    assert acts[..i + 1][..i] == acts[..i];
  }

  /** `resetStatusesRules`: once Group 0 has been all off for five and a
      half minutes, the activity goes back to NORMAL. */
  function ResetStatusesRules(g: KnownGroups, activity: SensorRef): seq<Rule> {
    [Rule("all off - off time", false,
      [AnyOnIs(g.group0, false), ChangedDelayed(GroupAnyOn(g.group0), "PT00:05:30")],
      [SetStatus(activity, Normal)])]
  }

  lemma ResetStatusesRulesSpec(g: KnownGroups, activity: SensorRef, s: Snapshot, store: Store)
    ensures |ResetStatusesRules(g, activity)| == 1
    ensures Matches(ResetStatusesRules(g, activity)[0], s) <==>
      !s.anyOn(g.group0) && s.stableFor(GroupAnyOn(g.group0), "PT00:05:30")
    ensures Apply(ResetStatusesRules(g, activity)[0].actions, store) == store[activity := Normal]
    ensures GroupCommands(ResetStatusesRules(g, activity)[0].actions) == []
  {
    var r := ResetStatusesRules(g, activity)[0];
    MatchTwo(r, s, r.conditions[0], r.conditions[1]);
    ApplyOne(r.actions[0], store);
  }
}
