# hue-rules-manager, modelled in Dafny

hue-rules-manager programs a Philips Hue bridge. Nearly all of it computes
declarative bridge rules. Each rule has a name, a recycle flag, a list of
conditions on sensor attributes, group state and the clock, and a list of
actions that write CLIP status sensors or send commands to groups.

The rules implement small state machines:

- **Motion state machine, per room.** It moves through ARMED, PLAN_GROUP_ON
  (also called SHOULD_TRIGGER_SCENE), GROUP_ON (also called SCENE_TRIGGERED)
  and DIMMED. There are two generations of it: `src/index.ts` and
  `src/motion_base_rules.ts`.
- **Scene selection.** It picks a scene by daylight, the late-night flag and
  the current activity. This lives in `src/activities.ts`,
  `src/rooms/*.ts` and the room functions of `src/index.ts`.
- **Dimmer switch controllers** (`src/dimmer_switch_rules.ts`):
  - a brightness ladder;
  - an activity round-robin;
  - a late-night toggle;
  - retrigger rules;
  - the all-off rules.

Around these sit four more pieces:

- the sensor registry and its unique-id counter (`src/variables.ts`);
- the teardown that deletes this program's rules and sensors
  (`src/utility.ts`);
- the hourly auto-scene job (`src/set_scenes.ts`);
- a change-logging monitor (`src/debug.ts`).

The model has these layers:

- `Rules` is the rule vocabulary (conditions, actions, rules), an abstract
  event `Snapshot` and an evaluator. `Matches` tells whether a rule's
  conditions all hold. `Apply` performs the status writes on a store.
  `GroupCommands` lists the commands sent to groups and scenes. `MatchCount`
  and `FireAll` cover a whole rule list.
- Every builder becomes a function that returns the same rules in the same
  order. The loops of `roundRobin`, `retriggerScenes` and `activitiesRules`
  become methods, each proved equal to its function.
- Lemmas state what each rule does: its guard as an if-and-only-if, its
  status writes and its commands. Further lemmas state what whole rule sets
  guarantee:
  - guards that exclude each other;
  - exactly one selection rule per situation;
  - saturation and inverse steps of the ladder;
  - the round-robin cycle;
  - the toggle.
- The registry (`Variables.Registry`) and the bridge (`Utility.Bridge`) are
  classes whose methods update their fields. The auto-scene job works on
  arrays of lightstates in place.

Module by module:

- **Strings:** decimal rendering of numbers, and prefixes.
- **Rules:** the rule vocabulary and its evaluator.
- **Variables:** the enums, the sensor registry and `createVariables`.
- **Resources:** the group and sensor handles, scene ids, transition times
  and the activity scene table.
- **MotionBaseRules:** the newer motion state machine.
- **LegacyIndex:** the older state machine and the room rules of
  `src/index.ts`.
- **Kitchen and Livingroom:** `src/rooms/kitchen.ts` and
  `src/rooms/livingroom.ts`.
- **Activities:** `src/activities.ts`.
- **DimmerSwitchRules:** `src/dimmer_switch_rules.ts`.
- **Utility:** `src/utility.ts`.
- **SetScenes:** `src/set_scenes.ts`.
- **Debug:** `src/debug.ts`.

## Model

| member | source | states |
|---|---|---|
| Strings.NatToStringInjective | src/variables.ts:51-52 | Distinct counter values render to distinct decimal strings. This makes the `${PREFIX}-${n}` ids unique. |
| Strings.IntToStringInjective | src/debug.ts:22 | Distinct integers render to distinct strings, where a leading '-' marks a negative value. |
| Variables.UniqueId | src/variables.ts:51-52 | The unique id built from counter k starts with PREFIX. |
| Variables.UniqueIdInjective | src/variables.ts:51-52 | Equal unique ids under one prefix come from equal counter values. |
| Variables.Stamped | src/variables.ts:49-54 | A stamped sensor carries manufacturer "hue-rules-manager" and a unique id that starts with PREFIX. |
| Variables.StampedDistinct | src/variables.ts:41-57 | Sensors stamped with different counter values have different unique ids, whatever their other fields. |
| Variables.Registry.constructor | src/variables.ts:39 | The registry starts with counter 0 under the given PREFIX. |
| Variables.Registry.SetupSensor | src/variables.ts:41-57 | The sensor handed to `beforeRegister` is the base sensor stamped with the current counter value k. The counter is then k+1. |
| Variables.Registry.SetupStatusSensor | src/variables.ts:59-68 | The new status sensor has its name, its status, modelid "software", swversion "1.0", the program's manufacturer and unique id PREFIX-k. The counter advances by one. |
| Variables.Registry.CreateVariables | src/variables.ts:70-102 | Six sensors are created in order with initial values ARMED, ARMED, ARMED, NOT_LATE_NIGHT, NORMAL and NEUTRAL. Their ids run from k to k+5, and the counter ends at k+6. |
| MotionBaseRules.MotionSensorBaseRules | src/motion_base_rules.ts:356-430 | The seven builders' lists together give exactly nine rules in this order: on, group on recover, dim status, refresh on, dim perform, off, recover, arm, immediate. |
| MotionBaseRules.BaseRulesNamed | src/motion_base_rules.ts:33-350 | None of the nine rules is recycled, and each is named prefix plus its own suffix (" - on", " group on recover", ...). |
| MotionBaseRules.BaseRuleNamesDistinct | src/motion_base_rules.ts:356-430 | The nine rule names are pairwise distinct. |
| MotionBaseRules.OnRuleSpec | src/motion_base_rules.ts:33-63 | "on" matches iff the status is ARMED, it is dark and presence is true. It writes only PLAN_GROUP_ON and sends no command. |
| MotionBaseRules.DimStatusRuleSpec | src/motion_base_rules.ts:82-113 | "dim status" matches iff the status is GROUP_ON, the status's lastupdated has been stable for the dim delay, and there is no presence. It stores the light state into the tmp scene and sets DIMMED. |
| MotionBaseRules.RefreshOnRuleSpec | src/motion_base_rules.ts:115-135 | "refresh on" matches iff the status is GROUP_ON and presence changed to true. It rewrites GROUP_ON. |
| MotionBaseRules.DimPerformRuleSpec | src/motion_base_rules.ts:137-152 | "dim perform" matches iff the status is DIMMED. It sends bri_inc -100 with the dimming transition and writes no status. |
| MotionBaseRules.OffRuleSpec | src/motion_base_rules.ts:157-194 | "off" matches iff the status is DIMMED, there is no presence and the status has been stable for the off delay. It sets ARMED and switches the group off. |
| MotionBaseRules.RecoverRuleSpec | src/motion_base_rules.ts:200-227 | "recover" matches iff the status is DIMMED and there is presence. It sets PLAN_GROUP_ON and sends no command. |
| MotionBaseRules.ArmRuleSpec | src/motion_base_rules.ts:234-258 | "arm" has no status guard. It matches iff there is no presence and the group is not on, and it sets ARMED. |
| MotionBaseRules.GroupOnRecoverRuleSpec | src/motion_base_rules.ts:266-314 | "group on recover" matches iff the status is PLAN_GROUP_ON, the scene-set flag is SET and the status's lastupdated changed. It recalls the tmp scene with the set-scene transition, keeps the flag SET and sets GROUP_ON. |
| MotionBaseRules.ImmediateRuleSpec | src/motion_base_rules.ts:321-350 | "immediate" matches iff the status is GROUP_ON and the flag is NOT_SET (the code at :340, not the comment at :319). It sets PLAN_GROUP_ON and does nothing else. |
| MotionBaseRules.DimStatusRefreshOnExclusive | src/motion_base_rules.ts:82-135 | Dim status and refresh on never match on the same snapshot. |
| MotionBaseRules.OffRecoverExclusive | src/motion_base_rules.ts:157-227 | Off and recover never match on the same snapshot. |
| MotionBaseRules.GroupOnRecoverImmediateExclusive | src/motion_base_rules.ts:266-350 | Group on recover and immediate never match on the same snapshot. |
| MotionBaseRules.BaseRulesFollowTransitions | src/motion_base_rules.ts:16-26 | Every matching base rule moves the status along the state table of the header comment (transitions 1, 3, 4, 5, 6 and 7). Apart from transition 6 (anything to ARMED), the only self-loops allowed are GROUP_ON to GROUP_ON (refresh on) and DIMMED to DIMMED (dim perform). It leaves every other status variable as it was. |
| LegacyIndex.LegacyRulesNamed | src/index.ts:185-383 | All seven rules of the older builder are recycled. They are named prefix plus " - presence on", " - dark on", " - dim status", " - dim presence", " - recover", " - off" and " - arm", in that order. |
| LegacyIndex.LegacyRuleNamesDistinct | src/index.ts:374-382 | The seven names are pairwise distinct. |
| LegacyIndex.PresenceOnDarkOnSpec | src/index.ts:192-242 | Presence on and dark on both need ARMED, dark and presence, and differ only in which attribute changed. Both write SHOULD_TRIGGER_SCENE, with the same actions. |
| LegacyIndex.DimRulesSpec | src/index.ts:244-300 | Both dim rules need SCENE_TRIGGERED and no presence. Both send bri_inc -128 and set DIMMED. |
| LegacyIndex.DimGuards | src/index.ts:244-300 | Dim status matches iff SCENE_TRIGGERED, the status stable for the dim delay and no presence. Dim presence is the same with the presence attribute stable instead. |
| LegacyIndex.RecoverRuleSpec | src/index.ts:302-323 | Recover matches any status above SHOULD_TRIGGER_SCENE on a presence change to true. It writes SHOULD_TRIGGER_SCENE. |
| LegacyIndex.DimRecoverExclusive | src/index.ts:248-323 | Neither dim rule ever matches together with recover. |
| LegacyIndex.OffArmSpec | src/index.ts:325-372 | Off and arm both need DIMMED and no presence, and both write ARMED. Only off switches the group off. |
| LegacyIndex.LegacyBaseTransitions | src/index.ts:185-383 | Every matching older base rule leaves SHOULD_TRIGGER_SCENE alone and moves the status along the older transition table. |
| LegacyIndex.ThreeWaySelection | src/index.ts:400-510 | When a selection is due, exactly one of day, night and late matches (otherwise none). The matching rule's scene is the one for its daylight and window case. |
| LegacyIndex.ThreeWayGuards | src/index.ts:400-510 | Day matches iff due and daylight. Night matches iff due, outside the late window and no daylight. Late matches iff due, inside the late window and no daylight. |
| LegacyIndex.KitchenSelectionSpec | src/index.ts:385-521 | The older kitchen's three rules: exactly one matches when due, with very bright by day, dimmed at night and the night light late. |
| LegacyIndex.HallwaySelectionSpec | src/index.ts:523-662 | The same for the hallway: `hallway_semi_bright` by day, `hallway_semi_bright` with bri_inc -20 at night, and `hallway_very_dimmed` late. |
| LegacyIndex.LivingroomSelectionSpec | src/index.ts:679-744 | Day iff due and daylight, night iff due and no daylight. There is exactly one when due, and its commands are stated for the day target given. |
| LegacyIndex.LegacyLivingroomGuards | src/index.ts:679-744 | The older living room's day rule matches iff due and daylight, its night rule iff due and no daylight. |
| LegacyIndex.LivingroomDaySceneMisdirected | src/index.ts:699-703 | As written, a daytime selection matches rule 7 and sends livingroom_bright to the Hallway group only. |
| LegacyIndex.LivingroomSelectionCommands | src/index.ts:699-744 | The day rule sends livingroom_bright to the day target it is given. The night rule sends livingroom_osaka to Living room. |
| LegacyIndex.LivingroomIntendedTargetsLivingRoom | src/index.ts:733-737 | With the day target corrected, rule 7 sends livingroom_bright and rule 8 livingroom_osaka, both to Living room, so every scene command of the selection rules goes there. |
| LegacyIndex.SetupLegacyStatusSensors | src/index.ts:153-176 | The three room status sensors are stamped PREFIX-k, PREFIX-(k+1) and PREFIX-(k+2) and start ARMED. The counter advances by three. |
| Kitchen.KitchenRules | src/rooms/kitchen.ts:11-147 | The result is the base rules followed by day, night and late. |
| Kitchen.KitchenSelectionSpec | src/rooms/kitchen.ts:29-144 | Each guard is SHOULD_TRIGGER_SCENE with a status change, plus its daylight and late-night case. Each rule applies its scene (very bright, dimmed, night light) to Kök and sets SCENE_TRIGGERED. |
| Kitchen.KitchenSelectionExactlyOne | src/rooms/kitchen.ts:42-130 | At most one rule matches. When a scene is planned and the flag is NOT or IS, exactly one matches. |
| Kitchen.KitchenDayIgnoresLateNight | src/rooms/kitchen.ts:29-61 | Changing the late-night flag never changes whether the day rule matches. |
| Livingroom.LivingroomRules | src/rooms/livingroom.ts:11-146 | The result is the base rules followed by day, N and R. |
| Livingroom.LivingroomSelectionSpec | src/rooms/livingroom.ts:29-143 | The guards are day by daylight, then N for NORMAL or R for RELAX at night. Each rule sends its scene to Living room with the set-scene transition and sets SCENE_TRIGGERED. |
| Livingroom.LivingroomSelectionCount | src/rooms/livingroom.ts:42-129 | At most one rule matches. By day exactly one matches. At night one matches iff the activity is NORMAL or RELAX. |
| Livingroom.LivingroomDayIgnoresActivity | src/rooms/livingroom.ts:29-61 | The activity value never changes whether the day rule matches. |
| Livingroom.LivingroomNoLateNight | src/rooms/livingroom.ts:63-143 | No selection rule depends on any status other than the room's and the activity. In particular none depends on the late-night flag. |
| Activities.SelectionActionsSpec | src/activities.ts:72-87 | A selection rule's actions send the scene to the room with transition 0, set the flag to WAS_SET and the status to GROUP_ON. |
| Activities.ActivityGuards | src/activities.ts:39-206 | Day needs the shared guard plus daylight. Night needs it plus no daylight and NOT_LATE_NIGHT. Late needs it plus no daylight and IS_LATE_NIGHT. |
| Activities.DayGuard | src/activities.ts:39-89 | The day rule of activity a matches iff the selection is open for a and there is daylight. |
| Activities.NightGuard | src/activities.ts:91-148 | The night rule matches iff the selection is open for a, the flag is NOT_LATE_NIGHT and there is no daylight. |
| Activities.LateGuard | src/activities.ts:150-206 | The late rule matches iff the selection is open for a, the flag is IS_LATE_NIGHT and there is no daylight. |
| Activities.ActivityRuleSpec | src/activities.ts:72-204 | A matching rule applies `activity_scenes[a][cycle]` for the cycle of its guard. |
| Activities.ActivityRuleExactlyOne | src/activities.ts:43-187 | At most one of an activity's rules matches. When the selection is open and the flag is NOT or IS, exactly one matches. |
| Activities.ActivityRuleNeedsActivity | src/activities.ts:43-66 | No rule of activity a matches unless the activity sensor holds a. |
| Activities.DistinctActivitiesExclusive | src/activities.ts:285-299 | Rules of different activities never match together. |
| Activities.SelectionYieldsToRecover | src/activities.ts:55-60 | Once the flag is WAS_SET no selection rule matches, and group on recover can then match. The two never match together. |
| Activities.ActivitySelectionCount | src/activities.ts:285-299 | Over distinct activities, the match count of the selection rules is the sum of the counts per activity. |
| Activities.ActivitiesSelectionExactlyOne | src/activities.ts:252-301 | At most one of the fifteen selection rules matches. Exactly one matches when some activity is open and the flag is NOT or IS. |
| Activities.ActivitiesRules | src/activities.ts:252-301 | The loop returns the base rules followed by three rules for each of FOCUS, NORMAL, DINNER, RELAX and TV, in that order: 24 rules in all. |
| Activities.ResetStatusesRulesSpec | src/activities.ts:211-245 | There is one rule. It matches iff Group 0 has been off for the delay, and it sets the activity to NORMAL and nothing else. |
| DimmerSwitchRules.TransitionOnClickSpec | src/dimmer_switch_rules.ts:34-64 | The rule matches iff the button event changed to its code while the variable equals `from`. It writes `to` and sends no command. |
| DimmerSwitchRules.RetriggerScenes | src/dimmer_switch_rules.ts:310-345 | The counter loop returns one rule per room status, in order. |
| DimmerSwitchRules.RetriggerRuleSpec | src/dimmer_switch_rules.ts:315-342 | Rule k matches iff the axis variable was rewritten while the room is SCENE_TRIGGERED. It writes only that room's SHOULD_TRIGGER_SCENE. |
| DimmerSwitchRules.RetriggerNamesDistinct | src/dimmer_switch_rules.ts:315-342 | The rule names "prefix - retrigger k" are pairwise distinct. |
| DimmerSwitchRules.SetupBrightness | src/dimmer_switch_rules.ts:66-141 | The result is the eight ladder rules, then one retrigger rule per room. |
| DimmerSwitchRules.LadderRuleSpec | src/dimmer_switch_rules.ts:72-136 | Each ladder rule matches iff its button was pressed while the level is its start level. It writes the next level. |
| DimmerSwitchRules.BrightnessLadderSpec | src/dimmer_switch_rules.ts:72-136 | For every button and level at most one ladder rule matches. One matches iff the level has a next level for that button, and it writes that level. |
| DimmerSwitchRules.LadderSaturates | src/dimmer_switch_rules.ts:72-136 | Dim up at VERY_BRIGHT and dim down at VERY_DIMMED have no next level. |
| DimmerSwitchRules.LadderUpDownInverse | src/dimmer_switch_rules.ts:72-136 | Dim up moves one rank up and dim down one rank down, and each undoes the other. |
| DimmerSwitchRules.RoundRobin | src/dimmer_switch_rules.ts:256-283 | The loop returns the n rules of RoundRobinRules. Rule i maps values[i] to values[(i+1) mod n]. |
| DimmerSwitchRules.RoundRobinStep | src/dimmer_switch_rules.ts:265-280 | Over distinct values, a press while the variable holds values[k] matches exactly one rule, which writes values[(k+1) mod n]. |
| DimmerSwitchRules.PressesCompose | src/dimmer_switch_rules.ts:265-280 | a presses followed by b presses are a+b presses. |
| DimmerSwitchRules.RoundRobinReturns | src/dimmer_switch_rules.ts:265-280 | n presses return to the starting value. |
| DimmerSwitchRules.SetupActivity | src/dimmer_switch_rules.ts:285-308 | The result is the five-value round-robin, then one retrigger rule per room. |
| DimmerSwitchRules.ActivityCycleSteps | src/dimmer_switch_rules.ts:292-307 | One ON short release moves NORMAL→RELAX→FOCUS→DINNER→TV→NORMAL. |
| DimmerSwitchRules.SetupLateNightStatus | src/dimmer_switch_rules.ts:143-254 | The result is four rules in return order, then one retrigger rule per room. |
| DimmerSwitchRules.LateNightClockComplementary | src/dimmer_switch_rules.ts:151-184 | The `in` and `notIn` rules on T22:20:00/T08:00:00 are complementary and exactly one matches. They set IS and NOT respectively. |
| DimmerSwitchRules.LateNightToggle | src/dimmer_switch_rules.ts:187-245 | The number of matching OFF short-release rules is 1 iff there is a press and the flag holds NOT or IS. The matching rule writes the other value. |
| DimmerSwitchRules.LateNightSwitchGuards | src/dimmer_switch_rules.ts:187-245 | The armed rule matches iff OFF short release was pressed while the flag is NOT_LATE_NIGHT. The l8 rule matches iff it was pressed while the flag is IS_LATE_NIGHT. |
| DimmerSwitchRules.SetupAllOffSpec | src/dimmer_switch_rules.ts:347-413 | OFF long release switches Group 0 off and writes no status. Group 0 being off for PT00:05:30 resets brightness to NEUTRAL and activity to NORMAL. |
| DimmerSwitchRules.OffPressSpec | src/dimmer_switch_rules.ts:356-377 | "off press" matches iff OFF long release was pressed. It switches Group 0 off and writes no status. |
| DimmerSwitchRules.OffTimeSpec | src/dimmer_switch_rules.ts:379-410 | "off time" matches iff Group 0 is off and has been for PT00:05:30. It sets brightness to NEUTRAL and activity to NORMAL and sends no command. |
| Utility.SweepDone | src/utility.ts:25-62 | The teardown ends without error iff the bridge accepts every selected deletion. It then leaves exactly the unselected items, in order. |
| Utility.SweepFails | src/utility.ts:32-36 | At the first refusal, at item i, the teardown throws on that item. The unselected items before i remain, together with item i and everything after it. |
| Utility.SweepIdempotent | src/utility.ts:25-62 | A second run on what a successful run left deletes nothing and succeeds. |
| Utility.KeptSpec | src/utility.ts:29-39 | What a successful run keeps is exactly the unselected items. |
| Utility.ClearRulesSpec | src/utility.ts:25-41 | After a successful run, none of the rules whose owner is the bridge user remain and every other rule does. |
| Utility.ClearClipSensorsSpec | src/utility.ts:43-62 | After a successful run, no sensor remains whose manufacturer is the program's and whose unique id is set and starts with PREFIX, and every other sensor does. |
| Utility.StampedIsCreatedHere | src/utility.ts:48-52 | Every sensor `setupSensor` stamps is selected by the sensor teardown under the same PREFIX. |
| Utility.VariablesAreCreatedHere | src/variables.ts:70-102 | All six sensors `createVariables` provisions are selected by the teardown. |
| Utility.Bridge.ClearRules | src/utility.ts:25-41 | The outcome and the rules left equal the Sweep of the old rules with the user's rules selected. The sensors are unchanged. |
| Utility.Bridge.ClearClipSensors | src/utility.ts:43-62 | The outcome and the sensors left equal the Sweep of the old sensors with CreatedHere selected. The rules are unchanged. |
| Utility.Bridge.DeleteRules | src/utility.ts:29-40 | The loop that deletes each selected rule in turn and throws at the first refusal ends with the outcome and rules of Sweep. The sensors are unchanged. |
| Utility.Bridge.DeleteSensors | src/utility.ts:47-61 | The same loop over the sensors ends with the outcome and sensors of Sweep. The rules are unchanged. |
| Utility.SweepAtSuffix | src/utility.ts:29-40 | Walking the list position by position from i, as the loops do, gives the same outcome and list as the walk over the suffix from i. |
| SetScenes.HallwayBucket | src/set_scenes.ts:20-38 | The hallway brightness lies in 0..254, and between 1 and 5 lights are on. |
| SetScenes.KitchenBri | src/set_scenes.ts:62-75 | The kitchen brightness lies in 0..254. |
| SetScenes.LivingRoomBri | src/set_scenes.ts:95-108 | The living-room brightness lies in 0..254. |
| SetScenes.BucketsMatchTable | src/set_scenes.ts:20-108 | For each hour 0..23, the three if-chains agree with the hour tables. |
| SetScenes.DaytimePeak | src/set_scenes.ts:20-75 | The hallway gets brightness 180 with five lights on, and the kitchen 254, exactly from 10 to 19. No hour gives the hallway more than 180. |
| SetScenes.OnCountSwitchOn | src/set_scenes.ts:47-54 | Switching on a light that was off adds one to the count of lights on. |
| SetScenes.SwapMultiset | src/set_scenes.ts:86-91 | An exchange keeps the multiset of elements. |
| SetScenes.SwapDistinct | src/set_scenes.ts:86-91 | An exchange of distinct elements leaves them distinct. |
| SetScenes.ShuffleArray | src/set_scenes.ts:86-91 | For any draws, the shuffle leaves a permutation of its input, which stays distinct if it was. |
| SetScenes.SetKitchenAuto | src/set_scenes.ts:60-84 | Every lightstate gets the kitchen brightness, and nothing else changes. |
| SetScenes.SetLivingRoomAuto | src/set_scenes.ts:93-118 | Every lightstate gets the living-room brightness, and nothing else changes. |
| SetScenes.SwitchAllOff | src/set_scenes.ts:41-45 | Every lightstate gets the bucket brightness and is switched off, with nothing else changed. No light is then on. |
| SetScenes.SwitchOnPopped | src/set_scenes.ts:47-54 | Popping distinct light ids while num_on is positive switches on exactly min(num_on, number of lights) lights and changes nothing but `on`. |
| SetScenes.SetHallwayAuto | src/set_scenes.ts:16-58 | Every lightstate gets the bucket brightness and keeps its other attributes. Exactly min(numOn, number of lights) lights are on. |
| Debug.RuleStatusString | src/debug.ts:12-23 | 0..3 map to ARMED, PLAN_GROUP_ON, GROUP_ON and DIMMED. Any other value gives "UNKNWON: " followed by the number. |
| Debug.RuleStatusStringInjective | src/debug.ts:12-23 | Distinct statuses get distinct strings. |
| Debug.ShouldLogIffObservedChanged | src/debug.ts:75-84 | A line is logged iff one of the five readings differs. A change of the date alone logs nothing. |
| Debug.FirstPollLogs | src/debug.ts:75-84 | Against the initial record, the first poll that reports any_on logs. |
| Debug.LogLineSplits | src/debug.ts:85-91 | When no field holds a comma, splitting the line at commas gives back the six fields in order: date, any_on, status, status lastupdated, presence, presence lastupdated. |
| Debug.SteadyRunLogsNothing | src/debug.ts:39-95 | Polls that observe the same readings as the last one log nothing, whatever their dates. |

## Left out

- **Bridge I/O.** Connecting to the bridge, `dotenv`, environment reads and console
  logging (`getApi`, `src/utility.ts:4-23`, `src/index.ts:70-89`) are I/O.
  `PREFIX` and the bridge user become parameters.
- **Async and bridge writes.** All `await` plumbing is out, including the `createRule`
  upload loops (`src/index.ts:512-520`). Whether the bridge accepts a deletion is the
  `deletes` parameter of the teardown.
- Fetching and storing scenes (`getScene`/`updateScene` in `src/set_scenes.ts`) is not
  modelled. A scene is its array of lightstates.
- **`src/set_rules.ts`.** This orchestrator imports modules that are not part of this
  model, and its calls do not match the builders' signatures.
- **`src/static_resources.ts`.** The group and sensor lookups are abstract handles. The
  scene ids and transition times are the source's literal values. `activity_scenes` and
  `DayCycle` are not defined in that file, so the activity scene table is an abstract
  function.
- **`src/environment.d.ts`.** It holds declarations only.
- **Bridge timing.** The rule engine's timing is abstract: `changed`, `ddx`/delayed
  changes and local-time windows are booleans of the snapshot. Durations and windows
  are opaque tokens. No clock or duration parsing is modelled.
- **Randomness and the clock.** `Math.random` is the oracle `draw`, and
  `draw(i) % (i + 1)` ranges over every index in [0, i]. `new Date().getHours()` is
  the `hour` parameter.
- **The polling loop of `src/debug.ts`.** The 2-second sleep and the recursive re-poll
  are modelled as the `Logged` function over a finite sequence of poll readings. The
  bridge reads themselves are not modelled.
- **node-hue-api objects.** `Rule`, the condition and action builders, and the CLIP
  sensor model are mirrored as datatypes. The library is not modelled.
- **Missing enum members.** `src/variables.ts` does not declare `PLAN_GROUP_ON`,
  `GROUP_ON`, `BrightnessLevel`, `SceneSetStatus`, `DIMMING_TIME`,
  `DIMMING_TIME_TIMESTAMP`, FOCUS, DINNER or TV.
  - PLAN_GROUP_ON = 1 and GROUP_ON = 2, as `src/debug.ts:15-18` names them.
  - The brightness levels reuse the `DimmingLevel` codes.
  - SceneSetStatus is NOT_SET = 0 and SET = WAS_SET = 1. So "below WAS_SET" means
    NOT_SET, and the flag that activity selection writes is the one group on recover
    waits for.
  - FOCUS, DINNER and TV are 2, 3 and 4.
  - The two dimming times are opaque tokens.
- **Builder arity.** The room files call the base rules builder with seven arguments,
  but `src/motion_base_rules.ts:356-365` takes eight. `Kitchen.KitchenRules` and
  `Livingroom.LivingroomRules` therefore take the base rules as a parameter. The dim
  delays the rooms pass ("PT00:20:00" for the kitchen, "PT01:00:00" for the living room)
  are part of that parameter, not constants of the model.
- **Comment versus code.** At `src/motion_base_rules.ts:319` the comment speaks of
  SCHEDULE_IMMEDIATELY, but the code at `:340` tests NOT_SET. The model follows the
  code.
- A JavaScript `null`/`undefined` unique id is modelled as the empty string.
- Lightstate attributes other than `on` and `bri` are one opaque map, which the job
  leaves unchanged.
- Debug.LogLineSplits: covers only lines whose fields hold no comma. With a comma
  inside a field, the split and the line are no longer inverse.

## Findings

| source | as written | input that shows it | evidently intended | confidence | as-written member | corrected member |
|---|---|---|---|---|---|---|
| src/index.ts:699-703 | The living room's "day and on" rule applies `livingroom_bright` to `groups.Hallway`. | A living-room status of SHOULD_TRIGGER_SCENE, a status change and daylight true. The rule fires and sends the scene to the Hallway group. | Send the scene to `groups["Living room"]`, as the night rule at :733-737 and `src/rooms/livingroom.ts:50` do. | not executed | LegacyIndex.LivingroomDaySceneMisdirected | LegacyIndex.LivingroomIntendedTargetsLivingRoom |
