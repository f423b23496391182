/** The per-room motion state machine of src/motion_base_rules.ts (the
    newer generation). A room's motion-rule status walks through
    ARMED -> PLAN_GROUP_ON -> GROUP_ON -> DIMMED and back to ARMED; a second
    virtual sensor, the scene-set flag, records whether a scene has already
    been applied in the current period. No rule of this generation recycles. */
module MotionBaseRules {
  import opened Strings
  import opened Rules
  import opened Variables
  import opened Resources

  /** The eight parameters of `motionSensorBaseRules`, shared by its builders. */
  datatype BaseParams = BaseParams(
    prefix: string,
    statusVar: SensorRef,    // motion_rule_status_variable
    sceneSetVar: SensorRef,  // scene_set_status_variable
    presence: SensorRef,
    lightLevel: SensorRef,
    group: GroupRef,
    dimDelay: Duration,
    tmpScene: SceneId)

  function StatusChanged(v: SensorRef): Condition { Changed(SensorAttr(v, LastUpdated)) }

  /** The motion status st is PLAN_GROUP_ON (alias SHOULD_TRIGGER_SCENE) and
      has just been written: the moment at which a scene is chosen. */
  predicate ScenePlanned(s: Snapshot, st: SensorRef) {
    StatusIs(s, st, PlanGroupOn) && s.changed(SensorAttr(st, LastUpdated))
  }

  // ---- The rules, as each builder constructs them ----

  function OnRule(c: BaseParams): Rule {
    Rule(c.prefix + " - on", false,
      [StatusEq(c.statusVar, Armed), DarkIs(c.lightLevel, true), PresenceIs(c.presence, true)],
      [SetStatus(c.statusVar, PlanGroupOn)])
  }

  function DimStatusRule(c: BaseParams): Rule {
    Rule(c.prefix + " - dim status", false,
      [StatusEq(c.statusVar, GroupOn),
       ChangedDelayed(SensorAttr(c.statusVar, LastUpdated), c.dimDelay),
       PresenceIs(c.presence, false)],
      [StoreLightState(c.tmpScene), SetStatus(c.statusVar, Dimmed)])
  }

  function RefreshOnRule(c: BaseParams): Rule {
    Rule(c.prefix + " - refresh on", false,
      [StatusEq(c.statusVar, GroupOn), StatusChanged(c.presence), PresenceIs(c.presence, true)],
      [SetStatus(c.statusVar, GroupOn)])
  }

  function DimPerformRule(c: BaseParams): Rule {
    Rule(c.prefix + " - dim perform", false,
      [StatusEq(c.statusVar, Dimmed)],
      [BriInc(c.group, -100, Some(DimmingTime))])
  }

  function OffRule(c: BaseParams): Rule {
    Rule(c.prefix + " - off", false,
      [StatusEq(c.statusVar, Dimmed),
       PresenceIs(c.presence, false),
       ChangedDelayed(SensorAttr(c.statusVar, LastUpdated), DimmingTimeTimestamp)],
      [SetStatus(c.statusVar, Armed), SetOn(c.group, false)])
  }

  function RecoverRule(c: BaseParams): Rule {
    Rule(c.prefix + " - recover", false,
      [StatusEq(c.statusVar, Dimmed), PresenceIs(c.presence, true)],
      [SetStatus(c.statusVar, PlanGroupOn)])
  }

  function ArmRule(c: BaseParams): Rule {
    Rule(c.prefix + " - arm", false,
      [PresenceIs(c.presence, false), AnyOnIs(c.group, false)],
      [SetStatus(c.statusVar, Armed)])
  }

  /** Named with a space and no dash, as the source has it. */
  function GroupOnRecoverRule(c: BaseParams): Rule {
    Rule(c.prefix + " group on recover", false,
      [StatusEq(c.statusVar, PlanGroupOn), StatusEq(c.sceneSetVar, SceneSet), StatusChanged(c.statusVar)],
      [SetScene(c.group, c.tmpScene, Some(SetSceneTransition)),
       SetStatus(c.sceneSetVar, SceneSet),
       SetStatus(c.statusVar, GroupOn)])
  }

  /** The code tests NOT_SET (the comment above it speaks of SCHEDULE_IMMEDIATELY). */
  function ImmediateRule(c: BaseParams): Rule {
    Rule(c.prefix + " - immediate", false,
      [StatusEq(c.statusVar, GroupOn), StatusEq(c.sceneSetVar, SceneNotSet)],
      [SetStatus(c.statusVar, PlanGroupOn)])
  }

  // ---- The builders ----

  function PlanGroupOnRules(c: BaseParams): seq<Rule> { [OnRule(c)] }
  function DimRules(c: BaseParams): seq<Rule> { [DimStatusRule(c), RefreshOnRule(c), DimPerformRule(c)] }
  function DimmedToOffRules(c: BaseParams): seq<Rule> { [OffRule(c)] }
  function RecoverFromDimmedRules(c: BaseParams): seq<Rule> { [RecoverRule(c)] }
  function ArmRules(c: BaseParams): seq<Rule> { [ArmRule(c)] }
  function GroupOnRecoverRules(c: BaseParams): seq<Rule> { [GroupOnRecoverRule(c)] }
  function ImmediateSceneChangeRules(c: BaseParams): seq<Rule> { [ImmediateRule(c)] }

  /** `motionSensorBaseRules`: the builders' results concatenated, giving the
      nine rules on, group on recover, dim status, refresh on, dim perform,
      off, recover, arm, immediate. */
  function MotionSensorBaseRules(c: BaseParams): (rs: seq<Rule>)
    ensures rs == [OnRule(c), GroupOnRecoverRule(c), DimStatusRule(c), RefreshOnRule(c),
                   DimPerformRule(c), OffRule(c), RecoverRule(c), ArmRule(c), ImmediateRule(c)]
  {
    PlanGroupOnRules(c) + GroupOnRecoverRules(c) + DimRules(c) + DimmedToOffRules(c)
      + RecoverFromDimmedRules(c) + ArmRules(c) + ImmediateSceneChangeRules(c)
  }

  /** None of the nine rules recycles, and each is named prefix plus its suffix. */
  lemma BaseRulesNamed(c: BaseParams)
    ensures forall i | 0 <= i < 9 ::
      !MotionSensorBaseRules(c)[i].recycle && MotionSensorBaseRules(c)[i].name == c.prefix + BaseSuffix(i)
  {
  }

  /** The name suffixes of the nine rules, in order. */
  function BaseSuffix(i: nat): string
    requires i < 9
  {
    [" - on", " group on recover", " - dim status", " - refresh on", " - dim perform",
     " - off", " - recover", " - arm", " - immediate"][i]
  }

  /** The nine rules carry pairwise distinct names. */
  lemma BaseRuleNamesDistinct(c: BaseParams)
    ensures forall i, j | 0 <= i < j < |MotionSensorBaseRules(c)| ::
      MotionSensorBaseRules(c)[i].name != MotionSensorBaseRules(c)[j].name
  {
    BaseRulesNamed(c);
    forall i: nat, j: nat | i < j < 9
      ensures MotionSensorBaseRules(c)[i].name != MotionSensorBaseRules(c)[j].name
    {
      PrefixedDistinct(c.prefix, BaseSuffix(i), BaseSuffix(j));
    }
  }

  // ---- What each rule does ----

  /** "on": ARMED, dark and presence; it plans the group on and commands nothing. */
  lemma OnRuleSpec(c: BaseParams, s: Snapshot, st: Store)
    ensures Matches(OnRule(c), s) <==>
      StatusIs(s, c.statusVar, Armed) && s.dark(c.lightLevel) && s.presence(c.presence)
    ensures Apply(OnRule(c).actions, st) == st[c.statusVar := PlanGroupOn]
    ensures GroupCommands(OnRule(c).actions) == []
  {
    var r := OnRule(c);
    MatchThree(r, s, r.conditions[0], r.conditions[1], r.conditions[2]);
    ApplyOne(r.actions[0], st);
  }

  /** "dim status": GROUP_ON stable for the dim delay without presence; it
      saves the light state into the tmp scene, then marks the room DIMMED. */
  lemma DimStatusRuleSpec(c: BaseParams, s: Snapshot, st: Store)
    ensures Matches(DimStatusRule(c), s) <==>
      StatusIs(s, c.statusVar, GroupOn) && s.stableFor(SensorAttr(c.statusVar, LastUpdated), c.dimDelay)
      && !s.presence(c.presence)
    ensures Apply(DimStatusRule(c).actions, st) == st[c.statusVar := Dimmed]
    ensures GroupCommands(DimStatusRule(c).actions) == [StoreLightState(c.tmpScene)]
  {
    var r := DimStatusRule(c);
    MatchThree(r, s, r.conditions[0], r.conditions[1], r.conditions[2]);
    ApplyTwo(r.actions[0], r.actions[1], st);
    ApplyOne(r.actions[0], st);
    ApplyOne(r.actions[1], st);
  }

  /** "refresh on": a fresh presence report while GROUP_ON rewrites GROUP_ON,
      which restarts the dim delay. */
  lemma RefreshOnRuleSpec(c: BaseParams, s: Snapshot, st: Store)
    ensures Matches(RefreshOnRule(c), s) <==>
      StatusIs(s, c.statusVar, GroupOn) && s.changed(SensorAttr(c.presence, LastUpdated)) && s.presence(c.presence)
    ensures Apply(RefreshOnRule(c).actions, st) == st[c.statusVar := GroupOn]
    ensures GroupCommands(RefreshOnRule(c).actions) == []
  {
    var r := RefreshOnRule(c);
    MatchThree(r, s, r.conditions[0], r.conditions[1], r.conditions[2]);
    ApplyOne(r.actions[0], st);
  }

  /** "dim perform": whenever the status is DIMMED, the group dims by a
      relative -100 over DIMMING_TIME; no status changes. */
  lemma DimPerformRuleSpec(c: BaseParams, s: Snapshot, st: Store)
    ensures Matches(DimPerformRule(c), s) <==> StatusIs(s, c.statusVar, Dimmed)
    ensures Apply(DimPerformRule(c).actions, st) == st
    ensures GroupCommands(DimPerformRule(c).actions) == [BriInc(c.group, -100, Some(DimmingTime))]
  {
    var r := DimPerformRule(c);
    MatchOne(r, s, r.conditions[0]);
    ApplyOne(r.actions[0], st);
  }

  /** "off": DIMMED with no presence and the status unchanged for
      DIMMING_TIME_TIMESTAMP; it re-arms and switches the group off. */
  lemma OffRuleSpec(c: BaseParams, s: Snapshot, st: Store)
    ensures Matches(OffRule(c), s) <==>
      StatusIs(s, c.statusVar, Dimmed) && !s.presence(c.presence)
      && s.stableFor(SensorAttr(c.statusVar, LastUpdated), DimmingTimeTimestamp)
    ensures Apply(OffRule(c).actions, st) == st[c.statusVar := Armed]
    ensures GroupCommands(OffRule(c).actions) == [SetOn(c.group, false)]
  {
    var r := OffRule(c);
    MatchThree(r, s, r.conditions[0], r.conditions[1], r.conditions[2]);
    ApplyTwo(r.actions[0], r.actions[1], st);
    ApplyOne(r.actions[0], st);
    ApplyOne(r.actions[1], st);
  }

  /** "recover": presence while DIMMED plans the group on again. */
  lemma RecoverRuleSpec(c: BaseParams, s: Snapshot, st: Store)
    ensures Matches(RecoverRule(c), s) <==> StatusIs(s, c.statusVar, Dimmed) && s.presence(c.presence)
    ensures Apply(RecoverRule(c).actions, st) == st[c.statusVar := PlanGroupOn]
    ensures GroupCommands(RecoverRule(c).actions) == []
  {
    var r := RecoverRule(c);
    MatchTwo(r, s, r.conditions[0], r.conditions[1]);
    ApplyOne(r.actions[0], st);
  }

  /** "arm" has no status guard: whatever the status, no presence and no
      light on in the group re-arm the room. */
  lemma ArmRuleSpec(c: BaseParams, s: Snapshot, st: Store)
    ensures Matches(ArmRule(c), s) <==> !s.presence(c.presence) && !s.anyOn(c.group)
    ensures Apply(ArmRule(c).actions, st) == st[c.statusVar := Armed]
    ensures GroupCommands(ArmRule(c).actions) == []
  {
    var r := ArmRule(c);
    MatchTwo(r, s, r.conditions[0], r.conditions[1]);
    ApplyOne(r.actions[0], st);
  }

  /** "group on recover": PLAN_GROUP_ON with the scene already set in this
      period restores the saved tmp scene, keeps the flag SET and goes to
      GROUP_ON. */
  lemma GroupOnRecoverRuleSpec(c: BaseParams, s: Snapshot, st: Store)
    ensures Matches(GroupOnRecoverRule(c), s) <==>
      StatusIs(s, c.statusVar, PlanGroupOn) && StatusIs(s, c.sceneSetVar, SceneSet)
      && s.changed(SensorAttr(c.statusVar, LastUpdated))
    ensures Apply(GroupOnRecoverRule(c).actions, st) == st[c.sceneSetVar := SceneSet][c.statusVar := GroupOn]
    ensures GroupCommands(GroupOnRecoverRule(c).actions) == [SetScene(c.group, c.tmpScene, Some(0))]
  {
    var r := GroupOnRecoverRule(c);
    MatchThree(r, s, r.conditions[0], r.conditions[1], r.conditions[2]);
    ApplyThree(r.actions[0], r.actions[1], r.actions[2], st);
    ApplyOne(r.actions[0], st);
    ApplyOne(r.actions[1], st);
    ApplyOne(r.actions[2], st);
  }

  /** "immediate": GROUP_ON with the flag NOT_SET goes back to PLAN_GROUP_ON,
      and nothing else is written or commanded. */
  lemma ImmediateRuleSpec(c: BaseParams, s: Snapshot, st: Store)
    ensures Matches(ImmediateRule(c), s) <==>
      StatusIs(s, c.statusVar, GroupOn) && StatusIs(s, c.sceneSetVar, SceneNotSet)
    ensures Apply(ImmediateRule(c).actions, st) == st[c.statusVar := PlanGroupOn]
    ensures GroupCommands(ImmediateRule(c).actions) == []
  {
    var r := ImmediateRule(c);
    MatchTwo(r, s, r.conditions[0], r.conditions[1]);
    ApplyOne(r.actions[0], st);
  }

  // ---- Exclusivity ----

  /** The presence guard separates dim status from refresh on. */
  lemma DimStatusRefreshOnExclusive(c: BaseParams)
    ensures Exclusive(DimStatusRule(c), RefreshOnRule(c))
  {
    forall s ensures !(Matches(DimStatusRule(c), s) && Matches(RefreshOnRule(c), s)) {
      DimStatusRuleSpec(c, s, map[]);
      RefreshOnRuleSpec(c, s, map[]);
    }
  }

  /** The presence guard separates off from recover. */
  lemma OffRecoverExclusive(c: BaseParams)
    ensures Exclusive(OffRule(c), RecoverRule(c))
  {
    forall s ensures !(Matches(OffRule(c), s) && Matches(RecoverRule(c), s)) {
      OffRuleSpec(c, s, map[]);
      RecoverRuleSpec(c, s, map[]);
    }
  }

  /** Group on recover wants the flag SET and immediate wants it NOT_SET
      (and they want different statuses too). */
  lemma GroupOnRecoverImmediateExclusive(c: BaseParams)
    ensures Exclusive(GroupOnRecoverRule(c), ImmediateRule(c))
  {
    forall s ensures !(Matches(GroupOnRecoverRule(c), s) && Matches(ImmediateRule(c), s)) {
      GroupOnRecoverRuleSpec(c, s, map[]);
      ImmediateRuleSpec(c, s, map[]);
    }
  }

  // ---- The transition table ----

  /** The status transitions of the header comment of motion_base_rules.ts
      that the base rules realise, numbered as there, plus the self-loops of
      refresh on and dim perform. Transition 2 belongs to the selection rules. */
  predicate BaseTransition(from: int, to: int) {
    || (from == Armed && to == PlanGroupOn)      // 1
    || (from == PlanGroupOn && to == GroupOn)    // 3
    || (from == GroupOn && to == Dimmed)         // 4
    || (from == Dimmed && to == PlanGroupOn)     // 5
    || to == Armed                               // 6 (and off)
    || (from == GroupOn && to == PlanGroupOn)    // 7
    || (from == GroupOn && to == GroupOn)        // refresh on
    || (from == Dimmed && to == Dimmed)          // dim perform
  }

  /** Rule r, applied to the store of s, moves the motion status along the
      transition table, keeps the scene-set flag and writes no other
      virtual sensor. */
  predicate StepsAlong(c: BaseParams, s: Snapshot, r: Rule)
    requires c.statusVar in s.status
  {
    var after := Apply(r.actions, s.status);
    && c.statusVar in after
    && BaseTransition(s.status[c.statusVar], after[c.statusVar])
    && (c.sceneSetVar in s.status ==> c.sceneSetVar in after && after[c.sceneSetVar] == s.status[c.sceneSetVar])
    && forall v | v in s.status && v != c.statusVar && v != c.sceneSetVar :: v in after && after[v] == s.status[v]
  }

  /** A rule that writes only the motion status, along the table. */
  lemma WritesStatusOnly(c: BaseParams, s: Snapshot, r: Rule, to: int)
    requires c.statusVar != c.sceneSetVar && c.statusVar in s.status
    requires Apply(r.actions, s.status) == s.status[c.statusVar := to]
    requires BaseTransition(s.status[c.statusVar], to)
    ensures StepsAlong(c, s, r)
  {
  }

  /** Any base rule that matches moves the motion status along the
      transition table, leaves the scene-set flag as it was, and writes no
      other virtual sensor. */
  lemma BaseRulesFollowTransitions(c: BaseParams, s: Snapshot, i: nat)
    requires c.statusVar != c.sceneSetVar && c.statusVar in s.status
    requires i < |MotionSensorBaseRules(c)| && Matches(MotionSensorBaseRules(c)[i], s)
    ensures c.statusVar in Apply(MotionSensorBaseRules(c)[i].actions, s.status)
    ensures BaseTransition(s.status[c.statusVar], Apply(MotionSensorBaseRules(c)[i].actions, s.status)[c.statusVar])
    ensures c.sceneSetVar in s.status ==>
      c.sceneSetVar in Apply(MotionSensorBaseRules(c)[i].actions, s.status)
      && Apply(MotionSensorBaseRules(c)[i].actions, s.status)[c.sceneSetVar] == s.status[c.sceneSetVar]
    ensures forall v | v in s.status && v != c.statusVar && v != c.sceneSetVar ::
      v in Apply(MotionSensorBaseRules(c)[i].actions, s.status)
      && Apply(MotionSensorBaseRules(c)[i].actions, s.status)[v] == s.status[v]
  {
    var r := MotionSensorBaseRules(c)[i];
    RuleStepsAlong(c, s, i);
    assert StepsAlong(c, s, r);
  }

  /** The case split of BaseRulesFollowTransitions, three rules at a time. */
  lemma RuleStepsAlong(c: BaseParams, s: Snapshot, i: nat)
    requires c.statusVar != c.sceneSetVar && c.statusVar in s.status
    requires i < |MotionSensorBaseRules(c)| && Matches(MotionSensorBaseRules(c)[i], s)
    ensures StepsAlong(c, s, MotionSensorBaseRules(c)[i])
  {
    if i < 3 { FirstRulesStepAlong(c, s, i); }
    else if i < 6 { MiddleRulesStepAlong(c, s, i); }
    else { LastRulesStepAlong(c, s, i); }
  }

  lemma FirstRulesStepAlong(c: BaseParams, s: Snapshot, i: nat)
    requires c.statusVar != c.sceneSetVar && c.statusVar in s.status
    requires i < 3 && Matches(MotionSensorBaseRules(c)[i], s)
    ensures StepsAlong(c, s, MotionSensorBaseRules(c)[i])
  {
    var st := s.status;
    if i == 0 { OnRuleSpec(c, s, st); WritesStatusOnly(c, s, OnRule(c), PlanGroupOn); }
    else if i == 1 {
      GroupOnRecoverRuleSpec(c, s, st);
      assert st[c.sceneSetVar := SceneSet] == st;
    }
    else { DimStatusRuleSpec(c, s, st); WritesStatusOnly(c, s, DimStatusRule(c), Dimmed); }
  }

  lemma MiddleRulesStepAlong(c: BaseParams, s: Snapshot, i: nat)
    requires c.statusVar != c.sceneSetVar && c.statusVar in s.status
    requires 3 <= i < 6 && Matches(MotionSensorBaseRules(c)[i], s)
    ensures StepsAlong(c, s, MotionSensorBaseRules(c)[i])
  {
    var st := s.status;
    if i == 3 { RefreshOnRuleSpec(c, s, st); WritesStatusOnly(c, s, RefreshOnRule(c), GroupOn); }
    else if i == 4 { DimPerformRuleSpec(c, s, st); }
    else { OffRuleSpec(c, s, st); WritesStatusOnly(c, s, OffRule(c), Armed); }
  }

  lemma LastRulesStepAlong(c: BaseParams, s: Snapshot, i: nat)
    requires c.statusVar != c.sceneSetVar && c.statusVar in s.status
    requires 6 <= i < 9 && Matches(MotionSensorBaseRules(c)[i], s)
    ensures StepsAlong(c, s, MotionSensorBaseRules(c)[i])
  {
    var st := s.status;
    if i == 6 { RecoverRuleSpec(c, s, st); WritesStatusOnly(c, s, RecoverRule(c), PlanGroupOn); }
    else if i == 7 { ArmRuleSpec(c, s, st); WritesStatusOnly(c, s, ArmRule(c), Armed); }
    else { ImmediateRuleSpec(c, s, st); WritesStatusOnly(c, s, ImmediateRule(c), PlanGroupOn); }
  }
}
