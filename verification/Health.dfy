/** The runtime's health loop: `healthLoop` of internal/runtime/runtime.go. */
module Health {

  const THRESHOLD := 3

  /** One health check of one plugin. */
  datatype Check = Check(plugin: string, ok: bool)

  /** A plugin.error event, with the number of failures it reports. */
  datatype Alarm = Alarm(plugin: string, failures: nat)

  // ---- What the alarms should be ----

  /** One plugin's outcomes, in order. */
  function Outcomes(checks: seq<Check>, plugin: string): seq<bool> {
    if checks == [] then []
    else Outcomes(checks[..|checks| - 1], plugin)
         + if checks[|checks| - 1].plugin == plugin then [checks[|checks| - 1].ok] else []
  }

  /** The length of the failure run a sequence of outcomes starts with. */
  function Leading(p: seq<bool>): (n: nat)
    ensures n <= |p| && (n < |p| ==> p[n]) && forall i :: 0 <= i < n ==> !p[i]
  {
    if p == [] || p[0] then 0 else 1 + Leading(p[1..])
  }

  /** The lengths of the maximal runs of failures. */
  function FailureRuns(p: seq<bool>): seq<nat> {
    if p == [] then []
    else if p[0] then FailureRuns(p[1..])
    else [Leading(p)] + FailureRuns(p[Leading(p)..])
  }

  /** One alarm for every three failures in a row. */
  function AlarmsDue(p: seq<bool>): nat {
    SumOfThirds(FailureRuns(p))
  }

  function SumOfThirds(runs: seq<nat>): nat {
    if runs == [] then 0 else runs[0] / THRESHOLD + SumOfThirds(runs[1..])
  }

  lemma AlarmsDueNone()
    ensures AlarmsDue([]) == 0
  {
  }

  lemma AlarmsDueSplit(p: seq<bool>)
    requires p != []
    ensures p[0] ==> AlarmsDue(p) == AlarmsDue(p[1..])
    ensures !p[0] ==> AlarmsDue(p) == Leading(p) / THRESHOLD + AlarmsDue(p[Leading(p)..])
  {
  }

  /** The length of the failure run a sequence of outcomes ends with. */
  function Trailing(p: seq<bool>): (n: nat)
    ensures n <= |p|
  {
    if p == [] || p[|p| - 1] then 0 else 1 + Trailing(p[..|p| - 1])
  }

  lemma TrailingPush(p: seq<bool>, ok: bool)
    ensures Trailing(p + [ok]) == if ok then 0 else Trailing(p) + 1
  {
    assert (p + [ok])[..|p|] == p;
  }

  lemma {:induction false} TrailingAll(p: seq<bool>)
    requires forall i :: 0 <= i < |p| ==> !p[i]
    ensures Trailing(p) == |p| && Leading(p) == |p|
  {
    if p != [] { TrailingAll(p[..|p| - 1]); }
  }

  /** Outcomes up to a success do not count towards the current run. */
  lemma {:induction false} TrailingSuffix(p: seq<bool>, n: nat)
    requires n < |p| && p[n]
    ensures Trailing(p) == Trailing(p[n..])
  {
    var k := |p| - 1;
    if n < k && !p[k] {
      TrailingSuffix(p[..k], n);
      assert p[n..][..k - n] == p[..k][n..];
    }
  }

  lemma LeadingIs(p: seq<bool>, n: nat)
    requires n <= |p| && (n < |p| ==> p[n]) && forall i :: 0 <= i < n ==> !p[i]
    ensures Leading(p) == n
  {
  }

  /** A further outcome raises an alarm exactly when it is the third, sixth, ... failure in a row. */
  lemma {:induction false} AlarmsDuePush(p: seq<bool>, ok: bool)
    ensures AlarmsDue(p + [ok]) == AlarmsDue(p) + if !ok && (Trailing(p) + 1) % THRESHOLD == 0 then 1 else 0
  {
    hide AlarmsDue, FailureRuns;
    var q := p + [ok];
    AlarmsDueSplit(q);
    if p == [] {
      AlarmsDueNone();
      assert q[1..] == [];
      if !ok { LeadingIs(q, 1); }
    } else {
      AlarmsDueSplit(p);
      if p[0] {
        assert q[1..] == p[1..] + [ok];
        AlarmsDuePush(p[1..], ok);
        TrailingAfterFirst(p);
      } else if Leading(p) < |p| {
        var n := Leading(p);
        LeadingIs(q, n);
        assert q[n..] == p[n..] + [ok];
        AlarmsDuePush(p[n..], ok);
        TrailingSuffix(p, n);
      } else {
        AllFailedPush(p, ok);
      }
    }
  }

  /** The last case of `AlarmsDuePush`: nothing but failures so far. */
  lemma AllFailedPush(p: seq<bool>, ok: bool)
    requires p != [] && Leading(p) == |p|
    ensures AlarmsDue(p + [ok]) == AlarmsDue(p) + if !ok && (Trailing(p) + 1) % THRESHOLD == 0 then 1 else 0
  {
    hide AlarmsDue, FailureRuns;
    var q, n := p + [ok], |p|;
    AlarmsDueNone();
    AlarmsDueSplit(p);
    AlarmsDueSplit(q);
    TrailingAll(p);
    assert p[n..] == [];
    LeadingIs(q, if ok then n else n + 1);
    if ok {
      assert q[n..] == [true];
      AlarmsDueSplit([true]);
      assert [true][1..] == [];
    } else {
      assert q[n + 1..] == [];
    }
  }

  lemma {:induction false} TrailingAfterFirst(p: seq<bool>)
    requires p != [] && p[0]
    ensures Trailing(p) == Trailing(p[1..])
  {
    var k := |p| - 1;
    if k > 0 && !p[k] {
      TrailingAfterFirst(p[..k]);
      assert p[1..][..k - 1] == p[..k][1..];
    }
  }

  /** How many alarms were raised for a plugin. */
  function AlarmsFor(alarms: seq<Alarm>, plugin: string): nat {
    if alarms == [] then 0
    else AlarmsFor(alarms[..|alarms| - 1], plugin) + if alarms[|alarms| - 1].plugin == plugin then 1 else 0
  }

  lemma AlarmsForPush(alarms: seq<Alarm>, a: Alarm, plugin: string)
    ensures AlarmsFor(alarms + [a], plugin) == AlarmsFor(alarms, plugin) + if a.plugin == plugin then 1 else 0
  {
    assert (alarms + [a])[..|alarms|] == alarms;
  }

  /** The counter and the alarms of one plugin say what its outcomes so far call for. */
  ghost predicate Tracks(checks: seq<Check>, alarms: seq<Alarm>, failures: map<string, nat>, plugin: string) {
    && AlarmsFor(alarms, plugin) == AlarmsDue(Outcomes(checks, plugin))
    && Counted(failures, plugin) == Trailing(Outcomes(checks, plugin)) % THRESHOLD
  }

  lemma CountOn(t: nat)
    ensures (t + 1) % THRESHOLD == if t % THRESHOLD == THRESHOLD - 1 then 0 else t % THRESHOLD + 1
  {
  }

  lemma SuccessTracks(checks: seq<Check>, id: string, alarms: seq<Alarm>, failures: map<string, nat>, plugin: string)
    requires Tracks(checks, alarms, failures, plugin)
    ensures Tracks(checks + [Check(id, true)], alarms, failures[id := 0], plugin)
  {
    hide AlarmsDue, Outcomes, Trailing;
    assert (checks + [Check(id, true)])[..|checks|] == checks;
    OneCheck(checks + [Check(id, true)], plugin);
  }

  lemma FailureTracks(checks: seq<Check>, id: string, alarms: seq<Alarm>, failures: map<string, nat>, plugin: string)
    requires Tracks(checks, alarms, failures, id) && Tracks(checks, alarms, failures, plugin)
    ensures var n := Counted(failures, id) + 1;
            if n < THRESHOLD then Tracks(checks + [Check(id, false)], alarms, failures[id := n], plugin)
            else Tracks(checks + [Check(id, false)], alarms + [Alarm(id, n)], failures[id := 0], plugin)
  {
    hide AlarmsDue, Outcomes, Trailing;
    assert (checks + [Check(id, false)])[..|checks|] == checks;
    OneCheck(checks + [Check(id, false)], plugin);
    CountOn(Trailing(Outcomes(checks, id)));
    AlarmsForPush(alarms, Alarm(id, Counted(failures, id) + 1), plugin);
  }

  /** Between checks no counter reaches three; and each plugin has been reported once for every
      three consecutive failures of its own, whatever the other plugins did. */
  method HealthLoop(checks: seq<Check>) returns (alarms: seq<Alarm>, failures: map<string, nat>)
    ensures forall plugin :: AlarmsFor(alarms, plugin) == AlarmsDue(Outcomes(checks, plugin))
    ensures forall plugin :: plugin in failures ==>
              failures[plugin] < THRESHOLD && failures[plugin] == Trailing(Outcomes(checks, plugin)) % THRESHOLD
    ensures forall a :: a in alarms ==> a.failures == THRESHOLD
  {
    alarms, failures := [], map[];
    for i := 0 to |checks|
      invariant forall plugin :: Tracks(checks[..i], alarms, failures, plugin)
      invariant forall plugin :: plugin in failures ==> failures[plugin] < THRESHOLD
      invariant forall a :: a in alarms ==> a.failures == THRESHOLD
    {
      var id := checks[i].plugin;
      ghost var was, before := alarms, failures;
      if !checks[i].ok {
        failures := failures[id := Counted(failures, id) + 1];
        if failures[id] >= THRESHOLD {
          alarms := alarms + [Alarm(id, failures[id])];
          failures := failures[id := 0];
          assert failures == before[id := 0];
        }
      } else {
        failures := failures[id := 0];
      }
      ghost var done := checks[..i + 1];
      forall plugin ensures Tracks(done, alarms, failures, plugin) {
        hide Tracks;
        assert done == checks[..i] + [Check(id, checks[i].ok)];
        assert Tracks(checks[..i], was, before, id) && Tracks(checks[..i], was, before, plugin);
        if checks[i].ok {
          SuccessTracks(checks[..i], id, was, before, plugin);
        } else {
          FailureTracks(checks[..i], id, was, before, plugin);
        }
      }
    }
    assert checks[..|checks|] == checks;
    forall plugin
      ensures AlarmsFor(alarms, plugin) == AlarmsDue(Outcomes(checks, plugin))
      ensures Counted(failures, plugin) == Trailing(Outcomes(checks, plugin)) % THRESHOLD
    {
      assert Tracks(checks, alarms, failures, plugin);
    }
  }

  /** A map read as the code reads it: a missing counter is 0. */
  function Counted(failures: map<string, nat>, plugin: string): nat {
    if plugin in failures then failures[plugin] else 0
  }

  /** What the latest check means for one plugin. */
  lemma OneCheck(checks: seq<Check>, plugin: string)
    requires checks != []
    ensures var last, p, q := checks[|checks| - 1], Outcomes(checks[..|checks| - 1], plugin), Outcomes(checks, plugin);
            && (last.plugin != plugin ==> q == p)
            && (last.plugin == plugin && last.ok ==> AlarmsDue(q) == AlarmsDue(p) && Trailing(q) == 0)
            && (last.plugin == plugin && !last.ok ==>
                  && Trailing(q) == Trailing(p) + 1
                  && AlarmsDue(q) == AlarmsDue(p) + if (Trailing(p) + 1) % THRESHOLD == 0 then 1 else 0)
  {
    hide AlarmsDue, Trailing;
    var last, p := checks[|checks| - 1], Outcomes(checks[..|checks| - 1], plugin);
    AlarmsDuePush(p, last.ok);
    TrailingPush(p, last.ok);
    assert p + [] == p;
  }
}
