/** The bridge's rule vocabulary (conditions, actions, rules) as the
    node-hue-api builders produce it, and an evaluator for it: a guard is
    checked against an abstract event snapshot, and a rule's actions are
    performed on the store of virtual status values. */
module Rules {

  datatype Option<+T> = None | Some(value: T)

  /** Resource handles are opaque identifiers. */
  type SensorRef = string
  type GroupRef = nat
  type SceneId = string
  /** An ISO 8601 duration such as "PT00:05:30", kept as an opaque token. */
  type Duration = string
  /** A local-time window such as "T22:20:00/T08:00:00", kept as an opaque token. */
  type TimeWindow = string

  /** The sensor attributes that conditions watch. */
  datatype Attr = Status | LastUpdated | Presence | Dark | ButtonEvent

  /** The address a condition watches: a sensor attribute, or a group's `any_on`. */
  datatype Address = SensorAttr(sensor: SensorRef, attr: Attr) | GroupAnyOn(group: GroupRef)

  datatype Condition =
    | StatusEq(sensor: SensorRef, value: int)         // .when("status").equals(v)
    | StatusLt(sensor: SensorRef, value: int)         // .when("status").lessThan(v)
    | StatusGt(sensor: SensorRef, value: int)         // .when("status").greaterThan(v)
    | PresenceIs(sensor: SensorRef, b: bool)          // .when("presence").equals(b)
    | DarkIs(sensor: SensorRef, b: bool)              // .when("dark").equals(b)
    | DaylightIs(sensor: SensorRef, b: bool)          // .when("daylight").equals(b)
    | AnyOnIs(group: GroupRef, b: bool)               // group .anyOn().equals(b)
    | ButtonIs(sensor: SensorRef, code: int)          // .when("buttonevent").equals(code)
    | Changed(address: Address)                       // .changed()
    | ChangedDelayed(address: Address, delay: Duration) // .changedDelayed(d)
    | LocalTimeIn(window: TimeWindow)                 // /config/localtime in w
    | LocalTimeNotIn(window: TimeWindow)              // /config/localtime notIn w

  datatype Action =
    | SetStatus(sensor: SensorRef, value: int)
    | SetScene(group: GroupRef, scene: SceneId, transitiontime: Option<nat>)
    | SetSceneBriInc(group: GroupRef, scene: SceneId, briInc: int)
    | SetOn(group: GroupRef, on: bool)
    | BriInc(group: GroupRef, inc: int, transitiontime: Option<nat>)
    | StoreLightState(scene: SceneId)

  datatype Rule = Rule(name: string, recycle: bool, conditions: seq<Condition>, actions: seq<Action>)

  /** What the bridge knows when it evaluates rules for one incoming event.
      `changed` and `stableFor` abstract the engine's edge and delayed-edge
      tests; `inWindow` abstracts the clock. */
  datatype Snapshot = Snapshot(
    status: map<SensorRef, int>,
    presence: SensorRef -> bool,
    dark: SensorRef -> bool,
    daylight: SensorRef -> bool,
    anyOn: GroupRef -> bool,
    buttonEvent: SensorRef -> int,
    changed: Address -> bool,
    stableFor: (Address, Duration) -> bool,
    inWindow: TimeWindow -> bool)

  /** The virtual sensor v holds the value n. */
  predicate StatusIs(s: Snapshot, v: SensorRef, n: int) {
    v in s.status && s.status[v] == n
  }

  predicate Holds(c: Condition, s: Snapshot) {
    match c
    case StatusEq(v, n) => StatusIs(s, v, n)
    case StatusLt(v, n) => v in s.status && s.status[v] < n
    case StatusGt(v, n) => v in s.status && s.status[v] > n
    case PresenceIs(p, b) => s.presence(p) == b
    case DarkIs(l, b) => s.dark(l) == b
    case DaylightIs(d, b) => s.daylight(d) == b
    case AnyOnIs(g, b) => s.anyOn(g) == b
    case ButtonIs(sw, code) => s.buttonEvent(sw) == code
    case Changed(a) => s.changed(a)
    case ChangedDelayed(a, d) => s.stableFor(a, d)
    case LocalTimeIn(w) => s.inWindow(w)
    case LocalTimeNotIn(w) => !s.inWindow(w)
  }

  /** A rule matches when every one of its conditions holds. */
  predicate Matches(r: Rule, s: Snapshot) {
    forall i | 0 <= i < |r.conditions| :: Holds(r.conditions[i], s)
  }

  /** Two rules never match on the same snapshot. */
  ghost predicate Exclusive(r1: Rule, r2: Rule) {
    forall s :: !(Matches(r1, s) && Matches(r2, s))
  }

  /** The number of rules of `rs` that match `s`. */
  function MatchCount(rs: seq<Rule>, s: Snapshot): (n: nat)
    ensures n <= |rs|
    decreases |rs|
  {
    if rs == [] then 0 else (if Matches(rs[0], s) then 1 else 0) + MatchCount(rs[1..], s)
  }

  type Store = map<SensorRef, int>

  function Perform(a: Action, st: Store): Store {
    match a
    case SetStatus(v, n) => st[v := n]
    case _ => st
  }

  /** Performs the status-setting actions in order on the store. */
  function Apply(acts: seq<Action>, st: Store): (r: Store)
    decreases |acts|
  {
    if acts == [] then st else Apply(acts[1..], Perform(acts[0], st))
  }

  /** Performing actions never removes a status variable from the store. */
  lemma {:induction false} ApplyKeepsKeys(acts: seq<Action>, st: Store)
    ensures st.Keys <= Apply(acts, st).Keys
    decreases |acts|
  {
    if acts != [] {
      ApplyKeepsKeys(acts[1..], Perform(acts[0], st));
    }
  }

  /** The actions addressed to groups and scenes (everything but SetStatus), in order. */
  function GroupCommands(acts: seq<Action>): (cs: seq<Action>)
    ensures |cs| <= |acts|
    decreases |acts|
  {
    if acts == [] then []
    else (if acts[0].SetStatus? then [] else [acts[0]]) + GroupCommands(acts[1..])
  }

  /** The commands are actions of the list, and none is a status write. */
  lemma {:induction false} GroupCommandsAreCommands(acts: seq<Action>)
    ensures forall i | 0 <= i < |GroupCommands(acts)| ::
      !GroupCommands(acts)[i].SetStatus? && GroupCommands(acts)[i] in acts
    decreases |acts|
  {
    if acts != [] {
      GroupCommandsAreCommands(acts[1..]);
      var head := if acts[0].SetStatus? then [] else [acts[0]];
      var cs := GroupCommands(acts);
      forall i | 0 <= i < |cs| ensures !cs[i].SetStatus? && cs[i] in acts {
        if i < |head| {
          assert cs[i] == acts[0];
        } else {
          assert cs[i] == GroupCommands(acts[1..])[i - |head|];
        }
      }
    }
  }

  /** Every rule of `rs` that matches `s` fires; the actions are performed
      in list order on the store `st`. Where at most one rule matches, the
      order is immaterial. */
  function FireAll(rs: seq<Rule>, s: Snapshot, st: Store): Store
    decreases |rs|
  {
    if rs == [] then st
    else FireAll(rs[1..], s, if Matches(rs[0], s) then Apply(rs[0].actions, st) else st)
  }

  // ---- Helpers for rules with short, literal condition and action lists ----

  lemma MatchOne(r: Rule, s: Snapshot, a: Condition)
    requires r.conditions == [a]
    ensures Matches(r, s) <==> Holds(a, s)
  {
    if Matches(r, s) { assert Holds(r.conditions[0], s); }
  }

  lemma MatchTwo(r: Rule, s: Snapshot, a: Condition, b: Condition)
    requires r.conditions == [a, b]
    ensures Matches(r, s) <==> Holds(a, s) && Holds(b, s)
  {
    if Matches(r, s) { assert Holds(r.conditions[0], s) && Holds(r.conditions[1], s); }
  }

  lemma MatchThree(r: Rule, s: Snapshot, a: Condition, b: Condition, c: Condition)
    requires r.conditions == [a, b, c]
    ensures Matches(r, s) <==> Holds(a, s) && Holds(b, s) && Holds(c, s)
  {
    if Matches(r, s) {
      assert Holds(r.conditions[0], s) && Holds(r.conditions[1], s) && Holds(r.conditions[2], s);
    }
  }

  lemma MatchFour(r: Rule, s: Snapshot, a: Condition, b: Condition, c: Condition, d: Condition)
    requires r.conditions == [a, b, c, d]
    ensures Matches(r, s) <==> Holds(a, s) && Holds(b, s) && Holds(c, s) && Holds(d, s)
  {
    if Matches(r, s) {
      assert Holds(r.conditions[0], s) && Holds(r.conditions[1], s);
      assert Holds(r.conditions[2], s) && Holds(r.conditions[3], s);
    }
  }

  lemma MatchFive(r: Rule, s: Snapshot, a: Condition, b: Condition, c: Condition, d: Condition, e: Condition)
    requires r.conditions == [a, b, c, d, e]
    ensures Matches(r, s) <==> Holds(a, s) && Holds(b, s) && Holds(c, s) && Holds(d, s) && Holds(e, s)
  {
    if Matches(r, s) {
      assert Holds(r.conditions[0], s) && Holds(r.conditions[1], s);
      assert Holds(r.conditions[2], s) && Holds(r.conditions[3], s) && Holds(r.conditions[4], s);
    }
  }

  lemma MatchSix(r: Rule, s: Snapshot, a: Condition, b: Condition, c: Condition, d: Condition, e: Condition, f: Condition)
    requires r.conditions == [a, b, c, d, e, f]
    ensures Matches(r, s) <==> Holds(a, s) && Holds(b, s) && Holds(c, s) && Holds(d, s) && Holds(e, s) && Holds(f, s)
  {
    if Matches(r, s) {
      assert Holds(r.conditions[0], s) && Holds(r.conditions[1], s) && Holds(r.conditions[2], s);
      assert Holds(r.conditions[3], s) && Holds(r.conditions[4], s) && Holds(r.conditions[5], s);
    }
  }

  /** Counting matches distributes over concatenation. */
  lemma {:induction false} MatchCountAppend(a: seq<Rule>, b: seq<Rule>, s: Snapshot)
    ensures MatchCount(a + b, s) == MatchCount(a, s) + MatchCount(b, s)
    decreases |a|
  {
    if a != [] {
      assert (a + b)[1..] == a[1..] + b;
      MatchCountAppend(a[1..], b, s);
    } else {
      assert a + b == b;
    }
  }

  /** No rule of rs matches exactly when the count is zero. */
  lemma {:induction false} MatchCountZero(rs: seq<Rule>, s: Snapshot)
    ensures MatchCount(rs, s) == 0 <==> forall i | 0 <= i < |rs| :: !Matches(rs[i], s)
    decreases |rs|
  {
    if rs != [] {
      MatchCountZero(rs[1..], s);
      assert forall i | 1 <= i < |rs| :: rs[i] == rs[1..][i - 1];
    }
  }

  /** When exactly the rule at index k matches, the count is one. */
  lemma {:induction false} MatchCountUnique(rs: seq<Rule>, s: Snapshot, k: nat)
    requires k < |rs| && Matches(rs[k], s)
    requires forall i | 0 <= i < |rs| && i != k :: !Matches(rs[i], s)
    ensures MatchCount(rs, s) == 1
    decreases |rs|
  {
    if k == 0 {
      MatchCountZero(rs[1..], s);
    } else {
      assert !Matches(rs[0], s);
      MatchCountUnique(rs[1..], s, k - 1);
    }
  }

  /** When no two rules match together, the count is at most one. */
  lemma {:induction false} MatchCountAtMostOne(rs: seq<Rule>, s: Snapshot)
    requires forall i, j | 0 <= i < j < |rs| :: !(Matches(rs[i], s) && Matches(rs[j], s))
    ensures MatchCount(rs, s) <= 1
    decreases |rs|
  {
    if rs != [] {
      if Matches(rs[0], s) {
        MatchCountZero(rs[1..], s);
        assert forall i | 0 <= i < |rs[1..]| :: !Matches(rs[1..][i], s) by {
          forall i | 0 <= i < |rs[1..]| ensures !Matches(rs[1..][i], s) {
            assert rs[1..][i] == rs[i + 1];
          }
        }
      } else {
        forall i, j | 0 <= i < j < |rs[1..]| ensures !(Matches(rs[1..][i], s) && Matches(rs[1..][j], s)) {
          assert rs[1..][i] == rs[i + 1] && rs[1..][j] == rs[j + 1];
        }
        MatchCountAtMostOne(rs[1..], s);
      }
    }
  }

  function Count(b: bool): nat { if b then 1 else 0 }

  lemma MatchCountTwo(a: Rule, b: Rule, s: Snapshot)
    ensures MatchCount([a, b], s) == Count(Matches(a, s)) + Count(Matches(b, s))
  {
    assert [a, b][1..] == [b];
    assert [b][1..] == [];
  }

  lemma MatchCountThree(a: Rule, b: Rule, c: Rule, s: Snapshot)
    ensures MatchCount([a, b, c], s) == Count(Matches(a, s)) + Count(Matches(b, s)) + Count(Matches(c, s))
  {
    assert [a, b, c][1..] == [b, c];
    MatchCountTwo(b, c, s);
  }

  lemma ApplyOne(a: Action, st: Store)
    ensures Apply([a], st) == Perform(a, st)
    ensures GroupCommands([a]) == if a.SetStatus? then [] else [a]
  {
    assert [a][1..] == [];
  }

  lemma ApplyTwo(a: Action, b: Action, st: Store)
    ensures Apply([a, b], st) == Perform(b, Perform(a, st))
    ensures GroupCommands([a, b]) == GroupCommands([a]) + GroupCommands([b])
  {
    assert [a, b][1..] == [b];
    ApplyOne(a, st);
    ApplyOne(b, Perform(a, st));
  }

  lemma ApplyThree(a: Action, b: Action, c: Action, st: Store)
    ensures Apply([a, b, c], st) == Perform(c, Perform(b, Perform(a, st)))
    ensures GroupCommands([a, b, c]) == GroupCommands([a]) + GroupCommands([b]) + GroupCommands([c])
  {
    assert [a, b, c][1..] == [b, c];
    ApplyOne(a, st);
    ApplyTwo(b, c, Perform(a, st));
  }

  /** A command followed by a status write: the command is sent and the
      status variable takes the value. */
  lemma CommandThenStatus(cmd: Action, v: SensorRef, value: int, st: Store)
    requires !cmd.SetStatus?
    ensures GroupCommands([cmd, SetStatus(v, value)]) == [cmd]
    ensures Apply([cmd, SetStatus(v, value)], st) == st[v := value]
  {
    ApplyTwo(cmd, SetStatus(v, value), st);
    ApplyOne(cmd, st);
    ApplyOne(SetStatus(v, value), Perform(cmd, st));
  }

  /** Firing a list of rules of which none matches leaves the store as it is. */
  lemma {:induction false} FireAllNone(rs: seq<Rule>, s: Snapshot, st: Store)
    requires forall i | 0 <= i < |rs| :: !Matches(rs[i], s)
    ensures FireAll(rs, s, st) == st
    decreases |rs|
  {
    if rs != [] {
      assert !Matches(rs[0], s);
      FireAllNone(rs[1..], s, st);
    }
  }

  /** When exactly the rule at index k matches, firing the list performs
      exactly that rule's actions. */
  lemma {:induction false} FireAllSingle(rs: seq<Rule>, s: Snapshot, st: Store, k: nat)
    requires k < |rs| && Matches(rs[k], s)
    requires forall i | 0 <= i < |rs| && i != k :: !Matches(rs[i], s)
    ensures FireAll(rs, s, st) == Apply(rs[k].actions, st)
    decreases |rs|
  {
    if k == 0 {
      FireAllNone(rs[1..], s, Apply(rs[0].actions, st));
    } else {
      assert !Matches(rs[0], s);
      FireAllSingle(rs[1..], s, st, k - 1);
    }
  }
}
