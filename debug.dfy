/** The living-room monitor of src/debug.ts: it polls the group's any_on,
    the presence sensor and one status sensor, and logs a comma-separated
    line whenever one of the readings changed since the previous poll. The
    bridge reads, the clock and the two-second sleep are outside the model;
    a run is the sequence of readings the polls return. */
module Debug {
  import opened Strings

  /** `ruleStatusString`: the name of a base rule status. */
  function RuleStatusString(rs: int): (s: string)
    ensures 0 <= rs <= 3 ==> s == ["ARMED", "PLAN_GROUP_ON", "GROUP_ON", "DIMMED"][rs]
    ensures !(0 <= rs <= 3) ==> StartsWith(s, UnknownPrefix)
  {
    if rs == 0 then "ARMED"
    else if rs == 1 then "PLAN_GROUP_ON"
    else if rs == 2 then "GROUP_ON"
    else if rs == 3 then "DIMMED"
    else UnknownPrefix + IntToString(rs)
  }

  /** The prefix as the source spells it. */
  const UnknownPrefix: string := "UNKNWON: "

  /** Different statuses are told apart: the status can be read back from
      its name. */
  lemma RuleStatusStringInjective(a: int, b: int)
    requires RuleStatusString(a) == RuleStatusString(b)
    ensures a == b
  {
    var s := RuleStatusString(a);
    if !(0 <= a <= 3) && !(0 <= b <= 3) {
      assert s == UnknownPrefix + IntToString(a) == UnknownPrefix + IntToString(b);
      AppendCancel(UnknownPrefix, IntToString(a), IntToString(b));
      IntToStringInjective(a, b);
    }
  }

  /** A reading as JavaScript holds it: the initial record holds
      `undefined`, the bridge returns booleans and timestamp strings. */
  datatype Value = Undefined | Bool(b: bool) | Str(s: string)

  /** `${v}` in a template literal. */
  function Render(v: Value): (r: string)
    ensures v.Str? ==> r == v.s
  {
    match v
    case Undefined => "undefined"
    case Bool(b) => if b then "true" else "false"
    case Str(s) => s
  }

  /** `interesting_data`: the date, the group's any_on, the presence sensor's
      lastupdated and presence, the status sensor's lastupdated and name. */
  datatype Reading = Reading(
    date: string,
    anyOn: Value,
    presenceLastUpdated: Value,
    presence: Value,
    statusLastUpdated: Value,
    status: string)

  /** The record `startRun` passes to the first `run`. */
  const Initial: Reading := Reading("", Undefined, Undefined, Undefined, Undefined, "")

  /** The five readings the change test compares; the date is not one. */
  function Observed(d: Reading): (Value, Value, Value, Value, string) {
    (d.anyOn, d.presenceLastUpdated, d.presence, d.statusLastUpdated, d.status)
  }

  /** The `if` of `run`: log when some reading differs from the last one. */
  predicate ShouldLog(last: Reading, cur: Reading) {
    || last.anyOn != cur.anyOn
    || last.presenceLastUpdated != cur.presenceLastUpdated
    || last.presence != cur.presence
    || last.statusLastUpdated != cur.statusLastUpdated
    || last.status != cur.status
  }

  /** A line is logged exactly when the five observed readings changed, so
      a change of the date alone logs nothing. */
  lemma ShouldLogIffObservedChanged(last: Reading, cur: Reading, date: string)
    ensures ShouldLog(last, cur) <==> Observed(last) != Observed(cur)
    ensures ShouldLog(last, cur) == ShouldLog(last.(date := date), cur.(date := date))
    ensures !ShouldLog(cur, cur.(date := date))
  {
  }

  /** The first poll logs as soon as the bridge reports any_on. */
  lemma FirstPollLogs(cur: Reading)
    requires !cur.anyOn.Undefined?
    ensures ShouldLog(Initial, cur)
  {
  }

  /** The fields of the line, in order: date, any_on, status, status
      lastupdated, presence, presence lastupdated. */
  function LineFields(d: Reading): seq<string> {
    [d.date, Render(d.anyOn), d.status, Render(d.statusLastUpdated), Render(d.presence), Render(d.presenceLastUpdated)]
  }

  /** The fields separated by commas, as `${a},${b},...` writes them. */
  function Join(fields: seq<string>): string
    requires |fields| >= 1
  {
    if |fields| == 1 then fields[0] else fields[0] + "," + Join(fields[1..])
  }

  /** The logged line. */
  function LogLine(d: Reading): (line: string)
    ensures ',' !in d.date ==> StartsWith(line, d.date + ",")
  {
    Join(LineFields(d))
  }

  /** `s.split(",")` */
  function Split(s: string): (parts: seq<string>)
    ensures |parts| >= 1
    decreases |s|
  {
    if ',' !in s then [s]
    else
      var i := IndexOfComma(s);
      [s[..i]] + Split(s[i + 1..])
  }

  function IndexOfComma(s: string): (i: nat)
    requires ',' in s
    ensures i < |s| && s[i] == ',' && ',' !in s[..i]
  {
    if s[0] == ',' then 0
    else
      assert s == [s[0]] + s[1..];
      var j := IndexOfComma(s[1..]);
      assert s[..j + 1] == [s[0]] + s[1..][..j];
      j + 1
  }

  /** Splitting a field followed by a comma and the rest. */
  lemma SplitCons(a: string, rest: string)
    requires ',' !in a
    ensures Split(a + "," + rest) == [a] + Split(rest)
  {
    var s := a + "," + rest;
    assert s[|a|] == ',';
    var i := IndexOfComma(s);
    assert s[..i] == a;
    assert s[i + 1..] == rest;
  }

  /** Splitting joined fields gives the fields back when none holds a comma. */
  lemma {:induction false} SplitJoin(fields: seq<string>)
    requires |fields| >= 1 && forall k | 0 <= k < |fields| :: ',' !in fields[k]
    ensures Split(Join(fields)) == fields
    decreases |fields|
  {
    if |fields| > 1 {
      var rest := fields[1..];
      forall k | 0 <= k < |rest| ensures ',' !in rest[k] {
        assert rest[k] == fields[k + 1];
      }
      calc {
        Split(Join(fields));
        { JoinCons(fields); }
        Split(fields[0] + "," + Join(rest));
        { SplitCons(fields[0], Join(rest)); }
        [fields[0]] + Split(Join(rest));
        { SplitJoin(rest); }
        [fields[0]] + rest;
      }
    } else {
      assert ',' !in fields[0];
    }
  }

  lemma JoinCons(fields: seq<string>)
    requires |fields| > 1
    ensures Join(fields) == fields[0] + "," + Join(fields[1..])
  {
  }

  /** When no field holds a comma, splitting the logged line gives back the
      six fields in order. */
  lemma LogLineSplits(d: Reading)
    requires forall k | 0 <= k < 6 :: ',' !in LineFields(d)[k]
    ensures Split(LogLine(d)) == LineFields(d)
  {
    SplitJoin(LineFields(d));
  }

  /** The lines the chain of `run` calls logs, each call comparing its
      reading with the one the previous call handed on, starting from `last`. */
  function Logged(last: Reading, polls: seq<Reading>): (lines: seq<string>)
    ensures |lines| <= |polls|
    decreases |polls|
  {
    if polls == [] then []
    else (if ShouldLog(last, polls[0]) then [LogLine(polls[0])] else []) + Logged(polls[0], polls[1..])
  }

  /** Polls that read what the last poll read log nothing, whatever their
      dates. */
  lemma {:induction false} SteadyRunLogsNothing(first: Reading, polls: seq<Reading>)
    requires forall k | 0 <= k < |polls| :: Observed(polls[k]) == Observed(first)
    ensures Logged(first, polls) == []
    decreases |polls|
  {
    if polls != [] {
      SteadyRunLogsNothing(polls[0], polls[1..]);
    }
  }
}
