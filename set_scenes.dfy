/** The auto-scene job of src/set_scenes.ts: from the current hour it picks
    a brightness (and, in the hallway, how many lights are on) and rewrites
    the lightstates of the hallway, kitchen and living-room auto scenes. The
    hour and the random draws of the shuffle are parameters; fetching and
    storing the scene are not modelled, so a scene is its array of
    lightstates. */
module SetScenes {

  /** One light's state in a scene: on/off, brightness, and every other
      attribute the scene stores, which the job leaves alone. */
  datatype LightState = LightState(on: bool, bri: int, others: map<string, int>)

  /** The hallway's setting for an hour: the brightness and how many of its
      lights are on. */
  datatype HallwaySetting = HallwaySetting(bri: int, numOn: nat)

  const MaxBri: int := 254

  /** The if-chain of `setHallwayAuto`. */
  function HallwayBucket(hour: int): (h: HallwaySetting)
    ensures 0 <= h.bri <= MaxBri && 1 <= h.numOn <= 5
  {
    if hour <= 7 then HallwaySetting(0, 1)
    else if hour <= 8 then HallwaySetting(0, 2)
    else if hour <= 9 then HallwaySetting(90, 2)
    else if hour <= 19 then HallwaySetting(180, 5)
    else if hour <= 21 then HallwaySetting(50, 3)
    else HallwaySetting(50, 1)
  }

  /** The if-chain of `setKitchenAuto`. */
  function KitchenBri(hour: int): (b: int)
    ensures 0 <= b <= MaxBri
  {
    if hour <= 7 then 10
    else if hour <= 8 then 30
    else if hour <= 9 then 70
    else if hour <= 19 then 254
    else if hour <= 21 then 120
    else 50
  }

  /** The if-chain of `setLivingRoomAuto`. */
  function LivingRoomBri(hour: int): (b: int)
    ensures 0 <= b <= MaxBri
  {
    if hour <= 7 then 10
    else if hour <= 8 then 50
    else if hour <= 9 then 90
    else if hour <= 20 then 200
    else if hour <= 21 then 120
    else 50
  }

  /** The three settings hour by hour, 0 to 23, as a table. */
  const HallwayByHour: seq<HallwaySetting> :=
    seq(8, _ => HallwaySetting(0, 1)) + [HallwaySetting(0, 2), HallwaySetting(90, 2)]
    + seq(10, _ => HallwaySetting(180, 5)) + seq(2, _ => HallwaySetting(50, 3)) + seq(2, _ => HallwaySetting(50, 1))
  const KitchenByHour: seq<int> :=
    seq(8, _ => 10) + [30, 70] + seq(10, _ => 254) + [120, 120, 50, 50]
  const LivingRoomByHour: seq<int> :=
    seq(8, _ => 10) + [50, 90] + seq(11, _ => 200) + [120, 50, 50]

  /** For each hour the clock can give, the if-chains agree with the table:
      the hallway is full and five lights on from 10 to 19, the kitchen at
      254 from 10 to 19, the living room at 200 from 10 to 20. */
  lemma BucketsMatchTable(hour: int)
    requires 0 <= hour < 24
    ensures |HallwayByHour| == |KitchenByHour| == |LivingRoomByHour| == 24
    ensures HallwayBucket(hour) == HallwayByHour[hour]
    ensures KitchenBri(hour) == KitchenByHour[hour]
    ensures LivingRoomBri(hour) == LivingRoomByHour[hour]
  {
    if hour < 8 {
      assert HallwayByHour[hour] == HallwaySetting(0, 1);
      assert KitchenByHour[hour] == 10 && LivingRoomByHour[hour] == 10;
    } else if 10 <= hour < 20 {
      assert HallwayByHour[hour] == HallwaySetting(180, 5);
      assert KitchenByHour[hour] == 254 && LivingRoomByHour[hour] == 200;
    }
  }

  /** The brightest hallway and kitchen settings hold exactly from 10 to
      19, and no hour gives the hallway more light than those. */
  lemma DaytimePeak(hour: int)
    ensures HallwayBucket(hour).bri == 180 <==> 10 <= hour <= 19
    ensures HallwayBucket(hour).numOn == 5 <==> 10 <= hour <= 19
    ensures KitchenBri(hour) == MaxBri <==> 10 <= hour <= 19
    ensures 10 <= hour <= 19 ==> forall h :: HallwayBucket(h).bri <= HallwayBucket(hour).bri
  {
  }

  /** The number of lightstates that are on. */
  function OnCount(s: seq<LightState>): (n: nat)
    ensures n <= |s|
  {
    if s == [] then 0 else (if s[0].on then 1 else 0) + OnCount(s[1..])
  }

  /** Switching on one light that was off adds one to the count. */
  lemma {:induction false} OnCountSwitchOn(s: seq<LightState>, i: nat)
    requires i < |s| && !s[i].on
    ensures OnCount(s[i := s[i].(on := true)]) == OnCount(s) + 1
  {
    var t := s[i := s[i].(on := true)];
    if i > 0 {
      assert t[1..] == s[1..][i - 1 := s[i].(on := true)];
      OnCountSwitchOn(s[1..], i - 1);
    } else {
      assert t[1..] == s[1..];
    }
  }

  /** With every light off the count is zero. */
  lemma {:induction false} OnCountAllOff(s: seq<LightState>)
    requires forall i | 0 <= i < |s| :: !s[i].on
    ensures OnCount(s) == 0
  {
    if s != [] {
      OnCountAllOff(s[1..]);
    }
  }

  predicate Distinct<T(==)>(s: seq<T>) {
    forall i, j | 0 <= i < j < |s| :: s[i] != s[j]
  }

  /** s with positions i and j exchanged. */
  function Swapped<T>(s: seq<T>, i: nat, j: nat): seq<T>
    requires i < |s| && j < |s|
  {
    s[i := s[j]][j := s[i]]
  }

  /** An exchange keeps the multiset of elements. */
  lemma SwapMultiset<T>(s: seq<T>, i: nat, j: nat)
    requires i < |s| && j < |s|
    ensures multiset(Swapped(s, i, j)) == multiset(s)
  {
    var u := s[i := s[j]];
    assert multiset(u) == multiset(s) - multiset{s[i]} + multiset{s[j]};
    assert multiset(u[j := s[i]]) == multiset(u) - multiset{u[j]} + multiset{s[i]};
  }

  /** An exchange keeps distinct elements distinct. */
  lemma SwapDistinct<T>(s: seq<T>, i: nat, j: nat)
    requires i < |s| && j < |s| && Distinct(s)
    ensures Distinct(Swapped(s, i, j))
  {
    var t := Swapped(s, i, j);
    forall p, q | 0 <= p < q < |t| ensures t[p] != t[q] {
      var p' := if p == i then j else if p == j then i else p;
      var q' := if q == i then j else if q == j then i else q;
      assert t[p] == s[p'] && t[q] == s[q'];
    }
  }

  /** `shuffleArray`: the Fisher-Yates loop. `Math.random` is the oracle
      `draw`; `Math.floor(Math.random() * (i + 1))` is any index in [0, i],
      which `draw(i) % (i + 1)` ranges over. */
  method ShuffleArray<T(==)>(a: array<T>, draw: nat -> nat)
    modifies a
    ensures multiset(a[..]) == multiset(old(a[..]))
    ensures Distinct(old(a[..])) ==> Distinct(a[..])
  {
    var i := a.Length - 1;
    while i > 0
      invariant -1 <= i < a.Length || a.Length == 0
      invariant multiset(a[..]) == multiset(old(a[..]))
      invariant Distinct(old(a[..])) ==> Distinct(a[..])
    {
      var j := draw(i) % (i + 1);
      ghost var before := a[..];
      a[i], a[j] := a[j], a[i];
      assert a[..] == Swapped(before, i, j);
      SwapMultiset(before, i, j);
      if Distinct(before) {
        SwapDistinct(before, i, j);
      }
      i := i - 1;
    }
  }

  /** The first loop of `setKitchenAuto` and `setLivingRoomAuto`: every
      lightstate gets brightness `bri`; nothing else changes. */
  method SetBrightness(ls: array<LightState>, bri: int)
    modifies ls
    ensures forall i | 0 <= i < ls.Length :: ls[i] == old(ls[i]).(bri := bri)
  {
    for i := 0 to ls.Length
      invariant forall k | 0 <= k < i :: ls[k] == old(ls[k]).(bri := bri)
      invariant forall k | i <= k < ls.Length :: ls[k] == old(ls[k])
    {
      ls[i] := ls[i].(bri := bri);
    }
  }

  /** `setKitchenAuto` on the kitchen auto scene's lightstates. */
  method SetKitchenAuto(ls: array<LightState>, hour: int)
    modifies ls
    ensures forall i | 0 <= i < ls.Length :: ls[i] == old(ls[i]).(bri := KitchenBri(hour))
  {
    SetBrightness(ls, KitchenBri(hour));
  }

  /** `setLivingRoomAuto` on the living-room auto scene's lightstates. */
  method SetLivingRoomAuto(ls: array<LightState>, hour: int)
    modifies ls
    ensures forall i | 0 <= i < ls.Length :: ls[i] == old(ls[i]).(bri := LivingRoomBri(hour))
  {
    SetBrightness(ls, LivingRoomBri(hour));
  }

  function Min(a: int, b: int): int { if a <= b then a else b }

  /** The first loop of `setHallwayAuto`: every lightstate gets brightness
      `bri` and is switched off; nothing else changes. */
  method SwitchAllOff(ls: array<LightState>, bri: int)
    modifies ls
    ensures forall i | 0 <= i < ls.Length :: ls[i] == old(ls[i]).(bri := bri, on := false)
    ensures OnCount(ls[..]) == 0
  {
    for i := 0 to ls.Length
      invariant forall k | 0 <= k < i :: ls[k] == old(ls[k]).(bri := bri, on := false)
      invariant forall k | i <= k < ls.Length :: ls[k] == old(ls[k])
    {
      ls[i] := ls[i].(bri := bri, on := false);
    }
    OnCountAllOff(ls[..]);
  }

  /** The `while` loop of `setHallwayAuto`: pop ids off the end of `lights`
      and switch those lights on, until `numOn` lights are on or the ids run
      out. The ids are distinct indices of lights that are all off. */
  method SwitchOnPopped(ls: array<LightState>, lights: array<nat>, numOn: nat)
    requires lights.Length == ls.Length
    requires Distinct(lights[..]) && forall k | 0 <= k < lights.Length :: lights[k] < ls.Length
    requires forall x | 0 <= x < ls.Length :: !ls[x].on
    requires OnCount(ls[..]) == 0
    modifies ls
    ensures forall x | 0 <= x < ls.Length :: ls[x] == old(ls[x]).(on := ls[x].on)
    ensures OnCount(ls[..]) == Min(numOn, ls.Length)
  {
    var n := ls.Length;
    var left: nat := numOn;
    var top := n;
    while left > 0 && top > 0
      invariant 0 <= top <= n
      invariant left + (n - top) == numOn
      invariant forall x | 0 <= x < n :: ls[x] == old(ls[x]).(on := ls[x].on) && (ls[x].on <==> x in lights[top..])
      invariant OnCount(ls[..]) == n - top
    {
      top := top - 1;
      var id := lights[top];
      assert id !in lights[top + 1..];
      OnCountSwitchOn(ls[..], id);
      ls[id] := ls[id].(on := true);
      assert lights[top..] == [id] + lights[top + 1..];
      left := left - 1;
    }
    assert n - top == Min(numOn, n);
  }

  /** `setHallwayAuto` on the hallway auto scene's lightstates: all get the
      bucket's brightness and are switched off, then the light ids are
      shuffled and popped from the end, switching lights on until the
      bucket's count or the lights run out. Afterwards exactly
      min(numOn, number of lights) are on, and no other attribute changed. */
  method SetHallwayAuto(ls: array<LightState>, hour: int, draw: nat -> nat)
    modifies ls
    ensures forall i | 0 <= i < ls.Length ::
      ls[i].bri == HallwayBucket(hour).bri && ls[i].others == old(ls[i].others)
    ensures OnCount(ls[..]) == Min(HallwayBucket(hour).numOn, ls.Length)
  {
    var setting := HallwayBucket(hour);
    SwitchAllOff(ls, setting.bri);
    var lights := new nat[ls.Length](i => i);
    assert Distinct(lights[..]);
    ShuffleArray(lights, draw);
    forall k | 0 <= k < lights.Length ensures lights[k] < ls.Length {
      assert lights[k] in multiset(lights[..]);
    }
    SwitchOnPopped(ls, lights, setting.numOn);
  }
}
