/** The dimmer-switch controllers of src/dimmer_switch_rules.ts. Each button
    release moves a virtual status along a small graph: a five-level
    brightness ladder, a round-robin over the activities, a late-night
    toggle. After any change of such an axis, the retrigger rules send every
    room whose scene is showing back to SHOULD_TRIGGER_SCENE, so that the
    scene is chosen anew. */
module DimmerSwitchRules {
  import opened Strings
  import opened Rules
  import opened Variables
  import opened Resources

  // ---- DimmerAction: button event codes ----
  const OnInitialPress: int := 1000
  const OnHold: int := 1001
  const OnShortReleased: int := 1002
  const OnLongReleased: int := 1003
  const DimUpInitialPress: int := 2000
  const DimUpHold: int := 2001
  const DimUpShortReleased: int := 2002
  const DimUpLongReleased: int := 2003
  const DimDownInitialPress: int := 3000
  const DimDownHold: int := 3001
  const DimDownShortReleased: int := 3002
  const DimDownLongReleased: int := 3003
  const OffInitialPress: int := 4000
  const OffHold: int := 4001
  const OffShortReleased: int := 4002
  const OffLongReleased: int := 4003

  function ButtonChanged(sw: SensorRef): Address { SensorAttr(sw, ButtonEvent) }

  /** The button event `code` has just been reported by switch sw. */
  predicate Pressed(s: Snapshot, sw: SensorRef, code: int) {
    s.changed(ButtonChanged(sw)) && s.buttonEvent(sw) == code
  }

  /** `transitionOnClick`: on a fresh `code` from sw while variable is
      `from`, set it to `to`. */
  function TransitionOnClick(name: string, sw: SensorRef, variable: SensorRef, code: int, from: int, to: int): Rule {
    Rule(name, false,
      [ButtonIs(sw, code), StatusEq(variable, from), Changed(ButtonChanged(sw))],
      [SetStatus(variable, to)])
  }

  lemma TransitionOnClickSpec(name: string, sw: SensorRef, variable: SensorRef, code: int, from: int, to: int,
                              s: Snapshot, store: Store)
    ensures Matches(TransitionOnClick(name, sw, variable, code, from, to), s) <==>
      Pressed(s, sw, code) && StatusIs(s, variable, from)
    ensures Apply(TransitionOnClick(name, sw, variable, code, from, to).actions, store) == store[variable := to]
    ensures GroupCommands(TransitionOnClick(name, sw, variable, code, from, to).actions) == []
  {
    var r := TransitionOnClick(name, sw, variable, code, from, to);
    MatchThree(r, s, r.conditions[0], r.conditions[1], r.conditions[2]);
    ApplyOne(r.actions[0], store);
  }

  // ---- The retrigger rules ----

  /** Rule k of `retriggerScenes`: when the axis variable is rewritten and
      room k's status is SCENE_TRIGGERED, set it to SHOULD_TRIGGER_SCENE. */
  function RetriggerRule(prefix: string, variable: SensorRef, roomStatus: SensorRef, k: nat): Rule {
    Rule(prefix + " - retrigger " + NatToString(k), false,
      [Changed(SensorAttr(variable, LastUpdated)), StatusEq(roomStatus, SceneTriggered)],
      [SetStatus(roomStatus, ShouldTriggerScene)])
  }

  /** The rules `retriggerScenes` returns: one per room status variable, in order. */
  function RetriggerRules(prefix: string, variable: SensorRef, roomStatuses: seq<SensorRef>): (rs: seq<Rule>)
    ensures |rs| == |roomStatuses|
  {
    seq(|roomStatuses|, k requires 0 <= k < |roomStatuses| => RetriggerRule(prefix, variable, roomStatuses[k], k))
  }

  /** `retriggerScenes`, with its running `retrigger_count`. */
  method RetriggerScenes(prefix: string, variable: SensorRef, roomStatuses: seq<SensorRef>) returns (rules: seq<Rule>)
    ensures rules == RetriggerRules(prefix, variable, roomStatuses)
  {
    var count: nat := 0;
    rules := [];
    for i := 0 to |roomStatuses|
      invariant count == i
      invariant rules == RetriggerRules(prefix, variable, roomStatuses[..i])
    {
      var r := RetriggerRule(prefix, variable, roomStatuses[i], count);
      count := count + 1;
      rules := rules + [r];
    }
    assert roomStatuses[..|roomStatuses|] == roomStatuses;
  }

  /** A retrigger rule fires exactly when the axis variable was rewritten
      while its room shows a scene, and it changes only that room's status,
      from SCENE_TRIGGERED to SHOULD_TRIGGER_SCENE. */
  lemma RetriggerRuleSpec(prefix: string, variable: SensorRef, roomStatus: SensorRef, k: nat, s: Snapshot, store: Store)
    ensures Matches(RetriggerRule(prefix, variable, roomStatus, k), s) <==>
      s.changed(SensorAttr(variable, LastUpdated)) && StatusIs(s, roomStatus, SceneTriggered)
    ensures Apply(RetriggerRule(prefix, variable, roomStatus, k).actions, store) == store[roomStatus := ShouldTriggerScene]
    ensures GroupCommands(RetriggerRule(prefix, variable, roomStatus, k).actions) == []
  {
    var r := RetriggerRule(prefix, variable, roomStatus, k);
    MatchTwo(r, s, r.conditions[0], r.conditions[1]);
    ApplyOne(r.actions[0], store);
  }

  /** The retrigger rules are named "prefix - retrigger 0", "... 1", ...,
      and no two carry the same name. */
  lemma RetriggerNamesDistinct(prefix: string, variable: SensorRef, roomStatuses: seq<SensorRef>, i: nat, j: nat)
    requires i < j < |roomStatuses|
    ensures RetriggerRules(prefix, variable, roomStatuses)[i].name != RetriggerRules(prefix, variable, roomStatuses)[j].name
  {
    var rs := RetriggerRules(prefix, variable, roomStatuses);
    if rs[i].name == rs[j].name {
      AppendCancel(prefix + " - retrigger ", NatToString(i), NatToString(j));
      NatToStringInjective(i, j);
    }
  }

  // ---- The brightness ladder ----

  /** The ladder's order VERY_DIMMED < DIMMED < NEUTRAL < BRIGHT < VERY_BRIGHT;
      it is not the order of the codes. */
  function Rank(level: int): Option<nat> {
    if level == BrightnessVeryDimmed then Some(0)
    else if level == BrightnessDimmed then Some(1)
    else if level == BrightnessNeutral then Some(2)
    else if level == BrightnessBright then Some(3)
    else if level == BrightnessVeryBright then Some(4)
    else None
  }

  function LevelOfRank(r: nat): (level: int)
    requires r < 5
    ensures Rank(level) == Some(r)
  {
    [BrightnessVeryDimmed, BrightnessDimmed, BrightnessNeutral, BrightnessBright, BrightnessVeryBright][r]
  }

  /** The level one press of `button` leads to from `level`, if any: one
      step up for dim-up, one step down for dim-down, nothing past the ends. */
  function LadderNext(level: int, button: int): Option<int> {
    match Rank(level)
    case None => None
    case Some(r) =>
      if button == DimUpShortReleased && r < 4 then Some(LevelOfRank(r + 1))
      else if button == DimDownShortReleased && r > 0 then Some(LevelOfRank(r - 1))
      else None
  }

  /** The eight click rules of `setupBrightness`, in order. */
  function BrightnessLadder(sw: SensorRef, bv: SensorRef): seq<Rule> {
    [TransitionOnClick("brightness status - neutral down", sw, bv, DimDownShortReleased, BrightnessNeutral, BrightnessDimmed),
     TransitionOnClick("brightness status - dimmed down", sw, bv, DimDownShortReleased, BrightnessDimmed, BrightnessVeryDimmed),
     TransitionOnClick("brightness status - v_dim down", sw, bv, DimUpShortReleased, BrightnessVeryDimmed, BrightnessDimmed),
     TransitionOnClick("brightness status - dimmed up", sw, bv, DimUpShortReleased, BrightnessDimmed, BrightnessNeutral),
     TransitionOnClick("brightness status - neutral up", sw, bv, DimUpShortReleased, BrightnessNeutral, BrightnessBright),
     TransitionOnClick("brightness status - bright up", sw, bv, DimUpShortReleased, BrightnessBright, BrightnessVeryBright),
     TransitionOnClick("brightness status - vb down", sw, bv, DimDownShortReleased, BrightnessVeryBright, BrightnessBright),
     TransitionOnClick("brightness status - bright down", sw, bv, DimDownShortReleased, BrightnessBright, BrightnessNeutral)]
  }

  /** `setupBrightness`: the ladder, then the retrigger rules. */
  function SetupBrightness(ss: KnownSensors, bv: SensorRef, roomStatuses: seq<SensorRef>): (rs: seq<Rule>)
    ensures |rs| == 8 + |roomStatuses|
  {
    BrightnessLadder(ss.dimmerSwitch, bv) + RetriggerRules("brightness status", bv, roomStatuses)
  }

  /** Which ladder rule handles a press that has a next level. */
  function LadderRuleIndex(level: int, button: int): (k: nat)
    requires LadderNext(level, button).Some?
    ensures k < 8
  {
    if button == DimDownShortReleased then
      if level == BrightnessNeutral then 0
      else if level == BrightnessDimmed then 1
      else if level == BrightnessVeryBright then 6
      else 7
    else
      if level == BrightnessVeryDimmed then 2
      else if level == BrightnessDimmed then 3
      else if level == BrightnessNeutral then 4
      else 5
  }

  /** Ladder rule i is one step of LadderNext: it takes its button and its
      from-level to the level LadderNext gives, and it is the rule
      LadderRuleIndex names for that press. */
  lemma LadderRuleIsStep(sw: SensorRef, bv: SensorRef, i: nat)
    requires i < 8
    ensures var r := BrightnessLadder(sw, bv)[i];
      && r == TransitionOnClick(r.name, sw, bv, r.conditions[0].code, r.conditions[1].value, r.actions[0].value)
      && LadderNext(r.conditions[1].value, r.conditions[0].code) == Some(r.actions[0].value)
      && LadderRuleIndex(r.conditions[1].value, r.conditions[0].code) == i
  {
  }

  /** The rule LadderRuleIndex names starts from that level on that button. */
  lemma LadderRuleIndexSpec(sw: SensorRef, bv: SensorRef, level: int, button: int)
    requires LadderNext(level, button).Some?
    ensures var r := BrightnessLadder(sw, bv)[LadderRuleIndex(level, button)];
      r.conditions[0].code == button && r.conditions[1].value == level
  {
  }

  /** A ladder rule matches exactly on a fresh press of its own button while
      the variable holds its from-level, and it writes its to-level. */
  lemma LadderRuleSpec(sw: SensorRef, bv: SensorRef, i: nat, s: Snapshot, store: Store)
    requires i < 8
    ensures var r := BrightnessLadder(sw, bv)[i];
      && (Matches(r, s) <==> Pressed(s, sw, r.conditions[0].code) && StatusIs(s, bv, r.conditions[1].value))
      && Apply(r.actions, store) == store[bv := r.actions[0].value]
  {
    var r := BrightnessLadder(sw, bv)[i];
    LadderRuleIsStep(sw, bv, i);
    TransitionOnClickSpec(r.name, sw, bv, r.conditions[0].code, r.conditions[1].value, r.actions[0].value, s, store);
  }

  /** For every button and level at most one ladder rule matches; one does
      exactly when the ladder has a next level for that press, and it sets
      the brightness variable to that level. */
  lemma BrightnessLadderSpec(sw: SensorRef, bv: SensorRef, s: Snapshot, store: Store)
    ensures MatchCount(BrightnessLadder(sw, bv), s) <= 1
    ensures MatchCount(BrightnessLadder(sw, bv), s) == 1 <==>
      s.changed(ButtonChanged(sw)) && bv in s.status && LadderNext(s.status[bv], s.buttonEvent(sw)).Some?
    ensures forall i | 0 <= i < 8 && Matches(BrightnessLadder(sw, bv)[i], s) ::
      && bv in s.status && LadderNext(s.status[bv], s.buttonEvent(sw)).Some?
      && Apply(BrightnessLadder(sw, bv)[i].actions, store) == store[bv := LadderNext(s.status[bv], s.buttonEvent(sw)).value]
  {
    var rs := BrightnessLadder(sw, bv);
    // A matching rule is the one LadderRuleIndex names for the press.
    forall i | 0 <= i < 8 && Matches(rs[i], s)
      ensures s.changed(ButtonChanged(sw)) && bv in s.status && LadderNext(s.status[bv], s.buttonEvent(sw)).Some?
      ensures i == LadderRuleIndex(s.status[bv], s.buttonEvent(sw))
      ensures Apply(rs[i].actions, store) == store[bv := LadderNext(s.status[bv], s.buttonEvent(sw)).value]
    {
      LadderRuleIsStep(sw, bv, i);
      LadderRuleSpec(sw, bv, i, s, store);
    }
    MatchCountAtMostOne(rs, s);
    if s.changed(ButtonChanged(sw)) && bv in s.status && LadderNext(s.status[bv], s.buttonEvent(sw)).Some? {
      var k := LadderRuleIndex(s.status[bv], s.buttonEvent(sw));
      LadderRuleIndexSpec(sw, bv, s.status[bv], s.buttonEvent(sw));
      LadderRuleSpec(sw, bv, k, s, store);
      MatchCountUnique(rs, s, k);
    } else {
      MatchCountZero(rs, s);
    }
  }

  /** The ladder stops at both ends. */
  lemma LadderSaturates()
    ensures LadderNext(BrightnessVeryBright, DimUpShortReleased) == None
    ensures LadderNext(BrightnessVeryDimmed, DimDownShortReleased) == None
  {
  }

  /** Dim-up moves exactly one rank up, dim-down exactly one rank down, and
      each undoes the other. */
  lemma LadderUpDownInverse(level: int, up: int)
    ensures LadderNext(level, DimUpShortReleased) == Some(up) ==>
      Rank(up).Some? && Rank(level).Some? && Rank(up).value == Rank(level).value + 1
      && LadderNext(up, DimDownShortReleased) == Some(level)
    ensures LadderNext(level, DimDownShortReleased) == Some(up) ==>
      Rank(up).Some? && Rank(level).Some? && Rank(up).value + 1 == Rank(level).value
      && LadderNext(up, DimUpShortReleased) == Some(level)
  {
  }

  // ---- The round-robin ----

  /** `${prefix} - ${value_i} -> ${value_next}` */
  function RoundRobinName(prefix: string, v: int, next: int): string {
    prefix + " - " + IntToString(v) + " -> " + IntToString(next)
  }

  /** The index after i in a cycle of n. */
  function NextIndex(i: nat, n: nat): (j: nat)
    requires i < n
    ensures j < n
  {
    if i + 1 < n then i + 1 else 0
  }

  /** NextIndex is the source's `(i + 1) % n`. */
  lemma NextIndexIsMod(i: nat, n: nat)
    requires i < n
    ensures NextIndex(i, n) == (i + 1) % n
  {
  }

  /** Rule i of `roundRobin`: a press moves values[i] to the next value. */
  function RoundRobinRule(prefix: string, sw: SensorRef, variable: SensorRef, code: int, values: seq<int>, i: nat): Rule
    requires i < |values|
  {
    var next := values[NextIndex(i, |values|)];
    TransitionOnClick(RoundRobinName(prefix, values[i], next), sw, variable, code, values[i], next)
  }

  /** The rules `roundRobin` returns, one per value in order. */
  function RoundRobinRules(prefix: string, sw: SensorRef, variable: SensorRef, code: int, values: seq<int>): (rs: seq<Rule>)
    ensures |rs| == |values|
  {
    seq(|values|, i requires 0 <= i < |values| => RoundRobinRule(prefix, sw, variable, code, values, i))
  }

  /** `roundRobin`: a `for` loop over the indices of `values`. */
  method RoundRobin(prefix: string, sw: SensorRef, variable: SensorRef, code: int, values: seq<int>) returns (rules: seq<Rule>)
    ensures rules == RoundRobinRules(prefix, sw, variable, code, values)
  {
    rules := [];
    for i := 0 to |values|
      invariant |rules| == i
      invariant forall k | 0 <= k < i :: rules[k] == RoundRobinRule(prefix, sw, variable, code, values, k)
    {
      rules := rules + [RoundRobinRule(prefix, sw, variable, code, values, i)];
    }
    RoundRobinRulesEqual(prefix, sw, variable, code, values, rules);
  }

  /** A list that holds rule k at every index k is RoundRobinRules. */
  lemma RoundRobinRulesEqual(prefix: string, sw: SensorRef, variable: SensorRef, code: int, values: seq<int>, rules: seq<Rule>)
    requires |rules| == |values|
    requires forall k | 0 <= k < |rules| :: rules[k] == RoundRobinRule(prefix, sw, variable, code, values, k)
    ensures rules == RoundRobinRules(prefix, sw, variable, code, values)
  {
  }

  predicate Distinct(values: seq<int>) {
    forall i, j | 0 <= i < j < |values| :: values[i] != values[j]
  }

  /** Over distinct values, a press while the variable holds values[k]
      fires exactly rule k, and the store then holds the next value in the
      cycle. */
  lemma RoundRobinStep(prefix: string, sw: SensorRef, variable: SensorRef, code: int, values: seq<int>,
                       s: Snapshot, store: Store, k: nat)
    requires Distinct(values) && k < |values|
    requires Pressed(s, sw, code) && StatusIs(s, variable, values[k])
    ensures MatchCount(RoundRobinRules(prefix, sw, variable, code, values), s) == 1
    ensures FireAll(RoundRobinRules(prefix, sw, variable, code, values), s, store)
      == store[variable := values[NextIndex(k, |values|)]]
  {
    var rs := RoundRobinRules(prefix, sw, variable, code, values);
    var n := |values|;
    forall i | 0 <= i < n
      ensures Matches(rs[i], s) <==> i == k
      ensures Apply(rs[i].actions, store) == store[variable := values[NextIndex(i, n)]]
    {
      var next := values[NextIndex(i, n)];
      TransitionOnClickSpec(RoundRobinName(prefix, values[i], next), sw, variable, code, values[i], next, s, store);
    }
    MatchCountUnique(rs, s, k);
    FireAllSingle(rs, s, store, k);
  }

  /** The index reached from k after m presses. */
  function Presses(k: nat, m: nat, n: nat): (j: nat)
    requires k < n
    ensures j < n
    decreases m
  {
    if m == 0 then k else NextIndex(Presses(k, m - 1, n), n)
  }

  /** a presses and then b more are a + b presses. */
  lemma {:induction false} PressesCompose(k: nat, a: nat, b: nat, n: nat)
    requires k < n
    ensures Presses(k, a + b, n) == Presses(Presses(k, a, n), b, n)
    decreases b
  {
    if b > 0 {
      PressesCompose(k, a, b - 1, n);
    }
  }

  /** Below the end of the cycle each press moves one place. */
  lemma {:induction false} PressesClimb(k: nat, m: nat, n: nat)
    requires k + m < n
    ensures Presses(k, m, n) == k + m
    decreases m
  {
    if m > 0 {
      PressesClimb(k, m - 1, n);
    }
  }

  /** n presses return to the value the variable started from. */
  lemma RoundRobinReturns(k: nat, n: nat)
    requires k < n
    ensures Presses(k, n, n) == k
  {
    PressesClimb(k, n - k - 1, n);
    assert Presses(k, n - k, n) == 0;
    PressesCompose(k, n - k, k, n);
    if k > 0 {
      PressesClimb(0, k, n);
    }
  }

  // ---- setupActivity ----

  /** The activity cycle the ON button walks. */
  const ActivityCycle: seq<int> := [Normal, Relax, Focus, Dinner, Tv]

  /** `setupActivity`: the ON short-release round-robin, then the retrigger rules. */
  function SetupActivity(ss: KnownSensors, av: SensorRef, roomStatuses: seq<SensorRef>): (rs: seq<Rule>)
    ensures |rs| == 5 + |roomStatuses|
  {
    RoundRobinRules("activity", ss.dimmerSwitch, av, OnShortReleased, ActivityCycle)
      + RetriggerRules("activity", av, roomStatuses)
  }

  /** One ON press moves NORMAL to RELAX to FOCUS to DINNER to TV and back
      to NORMAL. */
  lemma ActivityCycleSteps(ss: KnownSensors, av: SensorRef, s: Snapshot, store: Store, k: nat)
    requires k < 5 && Pressed(s, ss.dimmerSwitch, OnShortReleased) && StatusIs(s, av, ActivityCycle[k])
    ensures FireAll(RoundRobinRules("activity", ss.dimmerSwitch, av, OnShortReleased, ActivityCycle), s, store)
      == store[av := [Relax, Focus, Dinner, Tv, Normal][k]]
  {
    RoundRobinStep("activity", ss.dimmerSwitch, av, OnShortReleased, ActivityCycle, s, store, k);
  }

  // ---- setupLateNightStatus ----

  const LateNightWindow: TimeWindow := "T22:20:00/T08:00:00"

  function LateNightClockRule(late: SensorRef): Rule {
    Rule("late night status - l8 night", false, [LocalTimeIn(LateNightWindow)], [SetStatus(late, IsLateNight)])
  }

  function DimmerArmedRule(late: SensorRef, sw: SensorRef): Rule {
    Rule("late night status - dimmer armed", false,
      [StatusEq(late, NotLateNight), Changed(ButtonChanged(sw)), ButtonIs(sw, OffShortReleased)],
      [SetStatus(late, IsLateNight)])
  }

  function NotLateNightClockRule(late: SensorRef): Rule {
    Rule("late night status - not l8 night", false, [LocalTimeNotIn(LateNightWindow)], [SetStatus(late, NotLateNight)])
  }

  function DimmerLateRule(late: SensorRef, sw: SensorRef): Rule {
    Rule("late night status - dimmer l8", false,
      [StatusEq(late, IsLateNight), ButtonIs(sw, OffShortReleased), Changed(ButtonChanged(sw))],
      [SetStatus(late, NotLateNight)])
  }

  /** `setupLateNightStatus`, in its return order. */
  function SetupLateNightStatus(late: SensorRef, ss: KnownSensors, roomStatuses: seq<SensorRef>): (rs: seq<Rule>)
    ensures |rs| == 4 + |roomStatuses|
  {
    [LateNightClockRule(late), DimmerArmedRule(late, ss.dimmerSwitch),
     NotLateNightClockRule(late), DimmerLateRule(late, ss.dimmerSwitch)]
      + RetriggerRules("late night status", late, roomStatuses)
  }

  /** The two clock rules test the same window with `in` and `notIn`:
      exactly one matches on every snapshot; the first sets IS_LATE_NIGHT,
      the second NOT_LATE_NIGHT. */
  lemma LateNightClockComplementary(late: SensorRef, s: Snapshot, store: Store)
    ensures Matches(LateNightClockRule(late), s) <==> s.inWindow(LateNightWindow)
    ensures Matches(NotLateNightClockRule(late), s) <==> !s.inWindow(LateNightWindow)
    ensures MatchCount([LateNightClockRule(late), NotLateNightClockRule(late)], s) == 1
    ensures Apply(LateNightClockRule(late).actions, store) == store[late := IsLateNight]
    ensures Apply(NotLateNightClockRule(late).actions, store) == store[late := NotLateNight]
  {
    var a, b := LateNightClockRule(late), NotLateNightClockRule(late);
    MatchOne(a, s, a.conditions[0]);
    MatchOne(b, s, b.conditions[0]);
    MatchCountTwo(a, b, s);
    ApplyOne(a.actions[0], store);
    ApplyOne(b.actions[0], store);
  }

  /** The flag's other value. */
  function Toggled(flag: int): int {
    if flag == NotLateNight then IsLateNight else NotLateNight
  }

  /** An OFF short release toggles the flag: when the flag holds one of its
      two values, exactly one of the two switch rules matches and it writes
      the other value; no switch rule matches without such a press. */
  lemma LateNightToggle(late: SensorRef, sw: SensorRef, s: Snapshot, store: Store)
    ensures MatchCount([DimmerArmedRule(late, sw), DimmerLateRule(late, sw)], s) ==
      if Pressed(s, sw, OffShortReleased) && (StatusIs(s, late, NotLateNight) || StatusIs(s, late, IsLateNight)) then 1 else 0
    ensures Matches(DimmerArmedRule(late, sw), s) ==>
      (late in s.status && Apply(DimmerArmedRule(late, sw).actions, store) == store[late := Toggled(s.status[late])])
    ensures Matches(DimmerLateRule(late, sw), s) ==>
      (late in s.status && Apply(DimmerLateRule(late, sw).actions, store) == store[late := Toggled(s.status[late])])
  {
    LateNightSwitchGuards(late, sw, s);
    MatchCountTwo(DimmerArmedRule(late, sw), DimmerLateRule(late, sw), s);
    ApplyOne(SetStatus(late, IsLateNight), store);
    ApplyOne(SetStatus(late, NotLateNight), store);
  }

  lemma LateNightSwitchGuards(late: SensorRef, sw: SensorRef, s: Snapshot)
    ensures Matches(DimmerArmedRule(late, sw), s) <==> Pressed(s, sw, OffShortReleased) && StatusIs(s, late, NotLateNight)
    ensures Matches(DimmerLateRule(late, sw), s) <==> Pressed(s, sw, OffShortReleased) && StatusIs(s, late, IsLateNight)
  {
    var a, b := DimmerArmedRule(late, sw), DimmerLateRule(late, sw);
    MatchThree(a, s, a.conditions[0], a.conditions[1], a.conditions[2]);
    MatchThree(b, s, b.conditions[0], b.conditions[1], b.conditions[2]);
  }

  // ---- setupAllOff ----

  function OffPressRule(g: KnownGroups, ss: KnownSensors): Rule {
    Rule("all off - off press", false,
      [ButtonIs(ss.dimmerSwitch, OffLongReleased), Changed(ButtonChanged(ss.dimmerSwitch))],
      [SetOn(g.group0, false)])
  }

  function OffTimeRule(g: KnownGroups, brightness: SensorRef, activity: SensorRef): Rule {
    Rule("all off - off time", false,
      [AnyOnIs(g.group0, false), ChangedDelayed(GroupAnyOn(g.group0), "PT00:05:30")],
      [SetStatus(brightness, BrightnessNeutral), SetStatus(activity, Normal)])
  }

  /** `setupAllOff` */
  function SetupAllOff(g: KnownGroups, ss: KnownSensors, brightness: SensorRef, activity: SensorRef): seq<Rule> {
    [OffPressRule(g, ss), OffTimeRule(g, brightness, activity)]
  }

  /** An OFF long release switches Group 0 off and writes no status; Group 0
      staying all off for PT00:05:30 resets brightness to NEUTRAL and the
      activity to NORMAL and commands nothing. */
  lemma SetupAllOffSpec(g: KnownGroups, ss: KnownSensors, brightness: SensorRef, activity: SensorRef, s: Snapshot, store: Store)
    ensures Matches(OffPressRule(g, ss), s) <==> Pressed(s, ss.dimmerSwitch, OffLongReleased)
    ensures Apply(OffPressRule(g, ss).actions, store) == store
    ensures GroupCommands(OffPressRule(g, ss).actions) == [SetOn(g.group0, false)]
    ensures Matches(OffTimeRule(g, brightness, activity), s) <==>
      !s.anyOn(g.group0) && s.stableFor(GroupAnyOn(g.group0), "PT00:05:30")
    ensures Apply(OffTimeRule(g, brightness, activity).actions, store) == store[brightness := BrightnessNeutral][activity := Normal]
    ensures GroupCommands(OffTimeRule(g, brightness, activity).actions) == []
  {
    OffPressSpec(g, ss, s, store);
    OffTimeSpec(g, brightness, activity, s, store);
  }

  lemma OffPressSpec(g: KnownGroups, ss: KnownSensors, s: Snapshot, store: Store)
    ensures Matches(OffPressRule(g, ss), s) <==> Pressed(s, ss.dimmerSwitch, OffLongReleased)
    ensures Apply(OffPressRule(g, ss).actions, store) == store
    ensures GroupCommands(OffPressRule(g, ss).actions) == [SetOn(g.group0, false)]
  {
    var p := OffPressRule(g, ss);
    MatchTwo(p, s, p.conditions[0], p.conditions[1]);
    ApplyOne(p.actions[0], store);
  }

  lemma OffTimeSpec(g: KnownGroups, brightness: SensorRef, activity: SensorRef, s: Snapshot, store: Store)
    ensures Matches(OffTimeRule(g, brightness, activity), s) <==>
      !s.anyOn(g.group0) && s.stableFor(GroupAnyOn(g.group0), "PT00:05:30")
    ensures Apply(OffTimeRule(g, brightness, activity).actions, store) == store[brightness := BrightnessNeutral][activity := Normal]
    ensures GroupCommands(OffTimeRule(g, brightness, activity).actions) == []
  {
    var t := OffTimeRule(g, brightness, activity);
    MatchTwo(t, s, t.conditions[0], t.conditions[1]);
    ApplyTwo(t.actions[0], t.actions[1], store);
    ApplyOne(t.actions[0], store);
    ApplyOne(t.actions[1], store);
  }
}
