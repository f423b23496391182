/** The teardown of src/utility.ts: `clearRules` deletes every rule this
    program's bridge user owns, `clearClipSensors` every CLIP sensor this
    program created. Both walk the fetched list in order and stop at the
    first deletion the bridge refuses. The bridge is a class whose rule and
    sensor lists the two methods shrink; whether a deletion succeeds is the
    bridge's answer, given as a parameter. */
module Utility {
  import opened Strings
  import opened Rules
  import opened Variables

  /** A rule as the bridge lists it: its owner (the bridge user that
      created it) and its content. */
  datatype StoredRule = StoredRule(owner: string, rule: Rule)

  /** How a teardown ended: every selected item was deleted, or the bridge
      refused to delete `item` and the loop threw. */
  datatype Outcome<T> = Done | Failed(item: T)

  /** The teardown loop over `xs` as a value: the outcome and the items left
      on the bridge. A selected item is deleted when `deletes` says the
      bridge accepts; the first refusal ends the walk with every later item
      left in place. */
  function Sweep<T>(xs: seq<T>, selected: T -> bool, deletes: T -> bool): (r: (Outcome<T>, seq<T>))
    ensures |r.1| <= |xs|
  {
    if xs == [] then (Done, [])
    else
      var rest := Sweep(xs[1..], selected, deletes);
      if selected(xs[0]) then
        if deletes(xs[0]) then rest else (Failed(xs[0]), xs)
      else (rest.0, [xs[0]] + rest.1)
  }

  /** The items of xs that are not selected, in their order. */
  function Kept<T>(xs: seq<T>, selected: T -> bool): (ks: seq<T>)
    ensures |ks| <= |xs|
  {
    if xs == [] then []
    else if selected(xs[0]) then Kept(xs[1..], selected)
    else [xs[0]] + Kept(xs[1..], selected)
  }

  /** Kept holds exactly the unselected items. */
  lemma {:induction false} KeptSpec<T>(xs: seq<T>, selected: T -> bool)
    ensures forall x :: x in Kept(xs, selected) <==> x in xs && !selected(x)
  {
    if xs != [] {
      KeptSpec(xs[1..], selected);
      assert xs == [xs[0]] + xs[1..];
    }
  }

  /** The walk ends Done exactly when the bridge accepts every selected item. */
  lemma {:induction false} SweepDone<T>(xs: seq<T>, selected: T -> bool, deletes: T -> bool)
    ensures Sweep(xs, selected, deletes).0 == Done <==>
      forall i | 0 <= i < |xs| && selected(xs[i]) :: deletes(xs[i])
    ensures Sweep(xs, selected, deletes).0 == Done ==> Sweep(xs, selected, deletes).1 == Kept(xs, selected)
  {
    if xs != [] {
      var t := xs[1..];
      SweepDone(t, selected, deletes);
      if (forall i | 0 <= i < |t| && selected(t[i]) :: deletes(t[i])) && (selected(xs[0]) ==> deletes(xs[0])) {
        forall i | 0 <= i < |xs| && selected(xs[i]) ensures deletes(xs[i]) {
          if i > 0 { assert xs[i] == t[i - 1]; }
        }
      }
    }
  }

  /** When the bridge refuses item i and accepted every selected item
      before it, the walk fails on item i: the unselected items before i
      remain, and so do i and everything after it. */
  lemma {:induction false} SweepFails<T>(xs: seq<T>, selected: T -> bool, deletes: T -> bool, i: nat)
    requires i < |xs| && selected(xs[i]) && !deletes(xs[i])
    requires forall j | 0 <= j < i && selected(xs[j]) :: deletes(xs[j])
    ensures Sweep(xs, selected, deletes) == (Failed(xs[i]), Kept(xs[..i], selected) + xs[i..])
  {
    if i == 0 {
      assert Kept(xs[..0], selected) == [];
      assert [] + xs[0..] == xs;
    } else {
      var t := xs[1..];
      assert forall j | 0 <= j < i - 1 && selected(t[j]) :: deletes(t[j]) by {
        forall j | 0 <= j < i - 1 && selected(t[j]) ensures deletes(t[j]) {
          assert t[j] == xs[j + 1];
        }
      }
      SweepFails(t, selected, deletes, i - 1);
      assert xs[..i][1..] == t[..i - 1];
      assert t[i - 1..] == xs[i..];
      var before := Kept(t[..i - 1], selected);
      if selected(xs[0]) {
        assert Kept(xs[..i], selected) == before;
      } else {
        assert Kept(xs[..i], selected) == [xs[0]] + before;
        AppendAssoc([xs[0]], before, xs[i..]);
      }
    }
  }

  /** The walk over xs from position i on, counting positions instead of
      dropping items: the form the teardown loops follow. */
  function SweepAt<T>(xs: seq<T>, selected: T -> bool, deletes: T -> bool, i: nat): (Outcome<T>, seq<T>)
    requires i <= |xs|
    decreases |xs| - i
  {
    if i == |xs| then (Done, [])
    else
      var rest := SweepAt(xs, selected, deletes, i + 1);
      if selected(xs[i]) then
        if deletes(xs[i]) then rest else (Failed(xs[i]), xs[i..])
      else (rest.0, [xs[i]] + rest.1)
  }

  /** Walking from position i is walking the suffix from i. */
  lemma {:induction false} SweepAtSuffix<T>(xs: seq<T>, selected: T -> bool, deletes: T -> bool, i: nat)
    requires i <= |xs|
    ensures SweepAt(xs, selected, deletes, i) == Sweep(xs[i..], selected, deletes)
    decreases |xs| - i
  {
    if i < |xs| {
      SweepAtSuffix(xs, selected, deletes, i + 1);
      assert xs[i..][1..] == xs[i + 1..];
    }
  }

  lemma AppendAssoc<T>(a: seq<T>, b: seq<T>, c: seq<T>)
    ensures (a + b) + c == a + (b + c)
  {
  }

  /** Keeping xs[i] moves it from the unwalked part to the kept part. */
  lemma KeepStep<T>(kept: seq<T>, xs: seq<T>, i: nat, r: seq<T>)
    requires i < |xs|
    ensures kept + ([xs[i]] + r) == (kept + [xs[i]]) + r
    ensures kept + xs[i..] == (kept + [xs[i]]) + xs[i + 1..]
  {
    assert xs[i..] == [xs[i]] + xs[i + 1..];
  }

  /** Running the teardown again on what a successful run left deletes
      nothing and ends Done, whatever the bridge would answer. */
  lemma {:induction false} SweepIdempotent<T>(xs: seq<T>, selected: T -> bool, deletes: T -> bool)
    ensures Sweep(Kept(xs, selected), selected, deletes) == (Done, Kept(xs, selected))
  {
    if xs != [] {
      SweepIdempotent(xs[1..], selected, deletes);
      var ks := Kept(xs, selected);
      if !selected(xs[0]) {
        assert ks[1..] == Kept(xs[1..], selected);
      }
    }
  }

  /** `clearRules` selects the rules whose owner is the bridge user. */
  function OwnedBy(username: string): (StoredRule -> bool) {
    (r: StoredRule) => r.owner == username
  }

  /** `clearClipSensors` selects a sensor when its manufacturer is this
      program's and its unique id is set and starts with PREFIX. */
  function CreatedHere(prefix: string): (ClipSensor -> bool) {
    (s: ClipSensor) => s.manufacturername == Manufacturer && s.uniqueid != "" && StartsWith(s.uniqueid, prefix)
  }

  /** On a successful run no rule of the user's remains and every other
      rule does. */
  lemma ClearRulesSpec(rs: seq<StoredRule>, username: string, deletes: StoredRule -> bool)
    ensures Sweep(rs, OwnedBy(username), deletes).0 == Done ==>
      forall r :: r in Sweep(rs, OwnedBy(username), deletes).1 <==> r in rs && r.owner != username
  {
    SweepDone(rs, OwnedBy(username), deletes);
    KeptSpec(rs, OwnedBy(username));
  }

  /** On a successful run no sensor passing the three tests of
      `clearClipSensors` remains, and every other sensor does. */
  lemma ClearClipSensorsSpec(ss: seq<ClipSensor>, prefix: string, deletes: ClipSensor -> bool)
    ensures Sweep(ss, CreatedHere(prefix), deletes).0 == Done ==>
      forall s :: s in Sweep(ss, CreatedHere(prefix), deletes).1 <==>
        s in ss && !(s.manufacturername == Manufacturer && s.uniqueid != "" && StartsWith(s.uniqueid, prefix))
  {
    SweepDone(ss, CreatedHere(prefix), deletes);
    KeptSpec(ss, CreatedHere(prefix));
  }

  /** Every sensor `setupSensor` stamps is one `clearClipSensors` deletes. */
  lemma StampedIsCreatedHere(base: ClipSensor, prefix: string, k: nat)
    ensures CreatedHere(prefix)(Stamped(base, prefix, k))
  {
    assert |UniqueId(prefix, k)| > 0;
  }

  /** The six sensors `createVariables` provisions are all selected. */
  lemma VariablesAreCreatedHere(v: ProvisionedVariables, prefix: string, k: nat)
    requires IdsFrom(v, prefix, k)
    ensures forall i | 0 <= i < 6 :: CreatedHere(prefix)(AllVariables(v)[i])
  {
    forall i | 0 <= i < 6 ensures CreatedHere(prefix)(AllVariables(v)[i]) {
      assert |AllVariables(v)[i].uniqueid| > 0;
    }
  }

  /** The bridge's rules and sensors. */
  class Bridge {
    var rules: seq<StoredRule>
    var sensors: seq<ClipSensor>

    constructor (rules: seq<StoredRule>, sensors: seq<ClipSensor>)
      ensures this.rules == rules && this.sensors == sensors
    {
      this.rules := rules;
      this.sensors := sensors;
    }

    /** `clearRules`: delete every rule the bridge user owns. */
    method ClearRules(username: string, deletes: StoredRule -> bool) returns (outcome: Outcome<StoredRule>)
      modifies this
      ensures (outcome, rules) == Sweep(old(rules), OwnedBy(username), deletes)
      ensures sensors == old(sensors)
    {
      outcome := DeleteRules(OwnedBy(username), deletes);
    }

    /** `clearClipSensors`: delete every CLIP sensor this program created. */
    method ClearClipSensors(prefix: string, deletes: ClipSensor -> bool) returns (outcome: Outcome<ClipSensor>)
      modifies this
      ensures (outcome, sensors) == Sweep(old(sensors), CreatedHere(prefix), deletes)
      ensures rules == old(rules)
    {
      outcome := DeleteSensors(CreatedHere(prefix), deletes);
    }

    /** The loop of `clearRules`: walk the fetched rules, delete each
        selected one, throw at the first refusal. */
    method DeleteRules(selected: StoredRule -> bool, deletes: StoredRule -> bool) returns (outcome: Outcome<StoredRule>)
      modifies this
      ensures (outcome, rules) == Sweep(old(rules), selected, deletes)
      ensures sensors == old(sensors)
    {
      var fetched := rules;
      var kept: seq<StoredRule> := [];
      var i := 0;
      SweepAtSuffix(fetched, selected, deletes, 0);
      assert fetched[0..] == fetched;
      assert [] + SweepAt(fetched, selected, deletes, 0).1 == SweepAt(fetched, selected, deletes, 0).1;
      while i < |fetched|
        invariant 0 <= i <= |fetched|
        invariant rules == kept + fetched[i..]
        invariant sensors == old(sensors)
        invariant SweepAt(fetched, selected, deletes, 0)
          == (SweepAt(fetched, selected, deletes, i).0, kept + SweepAt(fetched, selected, deletes, i).1)
      {
        var rule := fetched[i];
        if selected(rule) {
          if !deletes(rule) {
            return Failed(rule);
          }
          rules := kept + fetched[i + 1..];
        } else {
          KeepStep(kept, fetched, i, SweepAt(fetched, selected, deletes, i + 1).1);
          kept := kept + [rule];
        }
        i := i + 1;
      }
      assert kept + [] == kept;
      outcome := Done;
    }

    /** The loop of `clearClipSensors`: walk the fetched sensors, delete
        each selected one, throw at the first refusal. */
    method DeleteSensors(selected: ClipSensor -> bool, deletes: ClipSensor -> bool) returns (outcome: Outcome<ClipSensor>)
      modifies this
      ensures (outcome, sensors) == Sweep(old(sensors), selected, deletes)
      ensures rules == old(rules)
    {
      var fetched := sensors;
      var kept: seq<ClipSensor> := [];
      var i := 0;
      SweepAtSuffix(fetched, selected, deletes, 0);
      assert fetched[0..] == fetched;
      assert [] + SweepAt(fetched, selected, deletes, 0).1 == SweepAt(fetched, selected, deletes, 0).1;
      while i < |fetched|
        invariant 0 <= i <= |fetched|
        invariant sensors == kept + fetched[i..]
        invariant rules == old(rules)
        invariant SweepAt(fetched, selected, deletes, 0)
          == (SweepAt(fetched, selected, deletes, i).0, kept + SweepAt(fetched, selected, deletes, i).1)
      {
        var sensor := fetched[i];
        if selected(sensor) {
          if !deletes(sensor) {
            return Failed(sensor);
          }
          sensors := kept + fetched[i + 1..];
        } else {
          KeepStep(kept, fetched, i, SweepAt(fetched, selected, deletes, i + 1).1);
          kept := kept + [sensor];
        }
        i := i + 1;
      }
      assert kept + [] == kept;
      outcome := Done;
    }
  }
}
