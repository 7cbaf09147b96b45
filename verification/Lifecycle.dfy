/** The life of a plugin process: `Start`, `Stop`, `monitor` and the automatic restart of
    internal/plugins/supervisor/process.go, at the granularity of its lock.

    Processes are numbered by launch. A process may exit at any moment; killing one only makes it
    exit sooner or later. */
module Lifecycle {
  import opened Prelude

  /** A monitor goroutine: started but not yet waiting; inside Wait for process `j`; inside it for ever; its
      Wait has returned; sleeping before a restart; or finished. */
  datatype Monitor = NotWaiting | WaitingFor(j: nat) | Hanging(j: nat) | Ended | Backoff | Done

  /** `waited`: some Wait for the process has returned. */
  datatype Process = Process(alive: bool, cancelled: bool, waited: bool, monitor: Monitor)

  /** `current` is the process that the fields cmd and ctx refer to; `starts` and `relaunches` count
      successful explicit starts and completed automatic restart attempts. */
  datatype Life = Life(running: bool, restarts: nat, current: Option<nat>, processes: seq<Process>,
                       starts: nat, relaunches: nat)

  datatype Label =
    | Start(launches: bool)
    | Stop
    | Exit(i: nat)
    | Await(i: nat, hangs: bool)
    | Wake(i: nat)
    | Reap(i: nat)
    | Relaunch(i: nat, launches: bool)

  const NEW_LIFE := Life(false, 0, None, [], 0, 0)

  // ---- Steps ----

  predicate In(s: Life, i: nat, m: Monitor) {
    i < |s.processes| && s.processes[i].monitor == m
  }

  /** Fields refer to processes that exist. */
  predicate Sound(s: Life) {
    && (s.current.Some? ==> s.current.value < |s.processes|)
    && (s.current.None? ==> s.processes == [] && !s.running)
    && forall i :: 0 <= i < |s.processes| ==>
         && (s.processes[i].monitor.WaitingFor? ==> s.processes[i].monitor.j < |s.processes|)
         && (s.processes[i].monitor.Hanging? ==>
               s.processes[i].monitor.j < |s.processes| && s.processes[s.processes[i].monitor.j].waited)
         && (s.processes[i].waited ==> !s.processes[i].alive)
  }

  /** A monitor hangs in its Wait for the current process. */
  predicate SomeHang(s: Life) {
    s.current.Some? && exists k :: 0 <= k < |s.processes| && s.processes[k].monitor == Hanging(s.current.value)
  }

  predicate Enabled(s: Life, l: Label)
    requires Sound(s)
  {
    match l
    case Start(_) => true
    case Stop => true
    case Exit(i) => i < |s.processes| && s.processes[i].alive
    case Await(i, hangs) => In(s, i, NotWaiting) && (hangs ==> SomeHang(s))
    case Wake(i) =>
      i < |s.processes| && s.processes[i].monitor.WaitingFor? && !s.processes[s.processes[i].monitor.j].alive
    case Reap(i) => In(s, i, Ended)
    case Relaunch(i, _) => In(s, i, Backoff)
  }

  /** `startLocked`: it never asks whether something is running. */
  function Launch(s: Life, launches: bool): Life {
    if !launches then s
    else s.(processes := s.processes + [Process(true, false, false, NotWaiting)],
            current := Some(|s.processes|), running := true)
  }

  function SetMonitor(s: Life, i: nat, m: Monitor): Life
    requires i < |s.processes|
  {
    s.(processes := s.processes[i := s.processes[i].(monitor := m)])
  }

  /** Wait begins: it fails at once if one has returned already, unless others' have spoilt the record. */
  function AfterAwait(s: Life, hangs: bool): Monitor
    requires Sound(s) && s.current.Some?
  {
    var j := s.current.value;
    if hangs then Hanging(j) else if s.processes[j].waited then Ended else WaitingFor(j)
  }

  /** Wait for a process returns to one of those inside it; the others never get the signal they need. */
  function Woken(ps: seq<Process>, i: nat): (qs: seq<Process>)
    requires i < |ps| && ps[i].monitor.WaitingFor?
    ensures |qs| == |ps| && qs[i].monitor == Ended
    ensures forall k :: 0 <= k < |ps| ==>
              && qs[k].alive == ps[k].alive && qs[k].cancelled == ps[k].cancelled
              && qs[k].waited == (ps[k].waited || k == ps[i].monitor.j)
    ensures forall k :: 0 <= k < |ps| && k != i ==>
              qs[k].monitor == if ps[k].monitor == ps[i].monitor then Hanging(ps[i].monitor.j) else ps[k].monitor
  {
    var j := ps[i].monitor.j;
    seq(|ps|, k requires 0 <= k < |ps| =>
      ps[k].(waited := ps[k].waited || k == j,
             monitor := if k == i then Ended else if ps[k].monitor == ps[i].monitor then Hanging(j) else ps[k].monitor))
  }

  /** Whether a monitor that has seen its process end will restart: it looks at the fields, which
      may by now refer to another process. */
  predicate ShouldRestart(s: Life, maxRestarts: int)
    requires Sound(s)
  {
    s.current.Some? && !s.processes[s.current.value].cancelled && s.restarts < maxRestarts
  }

  function Apply(maxRestarts: int, s: Life, l: Label): Life
    requires Sound(s) && Enabled(s, l)
  {
    match l
    case Start(launches) =>
      if s.running then s
      else Launch(s, launches).(starts := if launches then s.starts + 1 else s.starts)
    case Stop =>
      if !s.running then s
      else
        var i := s.current.value;
        s.(processes := s.processes[i := s.processes[i].(cancelled := true)], running := false)
    case Exit(i) => s.(processes := s.processes[i := s.processes[i].(alive := false)])
    case Await(i, hangs) => SetMonitor(s, i, AfterAwait(s, hangs))
    case Wake(i) => s.(processes := Woken(s.processes, i))
    case Reap(i) =>
      if ShouldRestart(s, maxRestarts) then SetMonitor(s, i, Backoff).(running := false, restarts := s.restarts + 1)
      else SetMonitor(s, i, Done).(running := false)
    case Relaunch(i, launches) => Launch(SetMonitor(s, i, Done), launches).(relaunches := s.relaunches + 1)
  }

  lemma StepSound(maxRestarts: int, s: Life, l: Label)
    requires Sound(s) && Enabled(s, l)
    ensures Sound(Apply(maxRestarts, s, l))
  {
    hide Woken, Launch;
    match l {
      case Start(launches) => LaunchSound(s, launches);
      case Await(i, hangs) => AwaitSound(maxRestarts, s, i, hangs);
      case Wake(i) => WakeSound(maxRestarts, s, i);
      case Relaunch(i, launches) => RelaunchSound(maxRestarts, s, i, launches);
      case _ =>
    }
  }

  lemma LaunchSound(s: Life, launches: bool)
    requires Sound(s)
    ensures Sound(Launch(s, launches))
  {
  }

  lemma AwaitSound(maxRestarts: int, s: Life, i: nat, hangs: bool)
    requires Sound(s) && Enabled(s, Await(i, hangs))
    ensures Sound(Apply(maxRestarts, s, Await(i, hangs)))
  {
  }

  lemma WakeSound(maxRestarts: int, s: Life, i: nat)
    requires Sound(s) && Enabled(s, Wake(i))
    ensures Sound(Apply(maxRestarts, s, Wake(i)))
  {
    hide Woken;
  }

  lemma RelaunchSound(maxRestarts: int, s: Life, i: nat, launches: bool)
    requires Sound(s) && Enabled(s, Relaunch(i, launches))
    ensures Sound(Apply(maxRestarts, s, Relaunch(i, launches)))
  {
  }

  ghost predicate CanRun(maxRestarts: int, s: Life, labels: seq<Label>)
    requires Sound(s)
    decreases labels
  {
    StepSoundHere(maxRestarts, s, labels);
    labels == [] || (Enabled(s, labels[0]) && CanRun(maxRestarts, Apply(maxRestarts, s, labels[0]), labels[1..]))
  }

  lemma StepSoundHere(maxRestarts: int, s: Life, labels: seq<Label>)
    requires Sound(s)
    ensures labels != [] && Enabled(s, labels[0]) ==> Sound(Apply(maxRestarts, s, labels[0]))
  {
    if labels != [] && Enabled(s, labels[0]) { StepSound(maxRestarts, s, labels[0]); }
  }

  ghost function Run(maxRestarts: int, s: Life, labels: seq<Label>): (z: Life)
    requires Sound(s) && CanRun(maxRestarts, s, labels)
    ensures Sound(z)
    decreases labels
  {
    StepSoundHere(maxRestarts, s, labels);
    if labels == [] then s else Run(maxRestarts, Apply(maxRestarts, s, labels[0]), labels[1..])
  }

  // ---- The restart budget, under every interleaving ----

  function InBackoff(): Process -> nat {
    (p: Process) => if p.monitor == Backoff then 1 else 0
  }

  function Budget(maxRestarts: int): nat {
    if maxRestarts < 0 then 0 else maxRestarts
  }

  ghost predicate BudgetKept(maxRestarts: int, s: Life) {
    && s.restarts <= Budget(maxRestarts)
    && Total(InBackoff(), s.processes) + s.relaunches == s.restarts
    && |s.processes| <= s.starts + s.relaunches
  }

  lemma BackoffUpdate(ps: seq<Process>, i: nat, p: Process)
    requires i < |ps|
    ensures Total(InBackoff(), ps[i := p]) + InBackoff()(ps[i]) == Total(InBackoff(), ps) + InBackoff()(p)
  {
    TotalReplace(InBackoff(), ps, i, [p]);
    assert ps[i := p] == ps[..i] + [p] + ps[i + 1..];
    assert [p][1..] == [];
  }

  lemma {:induction false} SameBackoffs(ps: seq<Process>, qs: seq<Process>)
    requires |ps| == |qs| && forall k :: 0 <= k < |ps| ==> (ps[k].monitor == Backoff <==> qs[k].monitor == Backoff)
    ensures Total(InBackoff(), ps) == Total(InBackoff(), qs)
  {
    if ps != [] { SameBackoffs(ps[1..], qs[1..]); }
  }

  lemma BackoffLaunch(ps: seq<Process>)
    ensures Total(InBackoff(), ps + [Process(true, false, false, NotWaiting)]) == Total(InBackoff(), ps)
  {
    TotalPush(InBackoff(), ps, Process(true, false, false, NotWaiting));
  }

  lemma StepBudget(maxRestarts: int, s: Life, l: Label)
    requires Sound(s) && Enabled(s, l) && BudgetKept(maxRestarts, s)
    ensures BudgetKept(maxRestarts, Apply(maxRestarts, s, l))
    ensures s.restarts <= Apply(maxRestarts, s, l).restarts
  {
    hide Total;
    match l {
      case Start(_) => BackoffLaunch(s.processes);
      case Stop =>
        if s.running { BackoffUpdate(s.processes, s.current.value, s.processes[s.current.value].(cancelled := true)); }
      case Exit(i) => BackoffUpdate(s.processes, i, s.processes[i].(alive := false));
      case Await(i, hangs) => BackoffUpdate(s.processes, i, s.processes[i].(monitor := AfterAwait(s, hangs)));
      case Wake(i) => SameBackoffs(s.processes, Woken(s.processes, i));
      case Reap(i) =>
        BackoffUpdate(s.processes, i, s.processes[i].(monitor := Backoff));
        BackoffUpdate(s.processes, i, s.processes[i].(monitor := Done));
      case Relaunch(i, _) =>
        BackoffUpdate(s.processes, i, s.processes[i].(monitor := Done));
        BackoffLaunch(s.processes[i := s.processes[i].(monitor := Done)]);
    }
  }

  /** Whatever happens, overlapping starts included: automatic restarts are never given back and
      never exceed the maximum, each is accounted for by a monitor in backoff or an attempt made,
      and the processes launched number at most the successful starts plus the maximum. */
  lemma {:induction false} RunBudget(maxRestarts: int, s: Life, labels: seq<Label>)
    requires Sound(s) && CanRun(maxRestarts, s, labels) && BudgetKept(maxRestarts, s)
    ensures var z := Run(maxRestarts, s, labels);
            && BudgetKept(maxRestarts, z)
            && s.restarts <= z.restarts
            && |z.processes| <= z.starts + Budget(maxRestarts)
    decreases labels
  {
    if labels != [] {
      StepSound(maxRestarts, s, labels[0]);
      StepBudget(maxRestarts, s, labels[0]);
      RunBudget(maxRestarts, Apply(maxRestarts, s, labels[0]), labels[1..]);
    }
  }

  // ---- One process at a time ----

  predicate AllDone(s: Life) {
    forall i :: 0 <= i < |s.processes| ==> s.processes[i].monitor == Done
  }

  predicate AtMostOneAlive(s: Life) {
    forall i, j :: 0 <= i < j < |s.processes| ==> !(s.processes[i].alive && s.processes[j].alive)
  }

  /** Start is never issued while an earlier process's monitor is outstanding. */
  ghost predicate NoOverlap(maxRestarts: int, s: Life, labels: seq<Label>)
    requires Sound(s) && CanRun(maxRestarts, s, labels)
    decreases labels
  {
    StepSoundHere(maxRestarts, s, labels);
    labels == []
    || ((labels[0].Start? ==> AllDone(s)) && NoOverlap(maxRestarts, Apply(maxRestarts, s, labels[0]), labels[1..]))
  }

  /** Only the last process launched can be alive or have an outstanding monitor, the fields refer
      to it, and its monitor waits for it. */
  ghost predicate Sole(s: Life) {
    var n := |s.processes|;
    && Sound(s)
    && (forall i :: 0 <= i < n - 1 ==> s.processes[i].monitor == Done && !s.processes[i].alive)
    && (n > 0 ==>
          var p := s.processes[n - 1];
          && s.current == Some(n - 1)
          && (p.alive ==> p.monitor == NotWaiting || p.monitor == WaitingFor(n - 1))
          && (p.monitor.WaitingFor? ==> p.monitor.j == n - 1) && !p.monitor.Hanging?
          && (p.waited ==> p.monitor != NotWaiting && !p.monitor.WaitingFor?)
          && (s.running ==> !p.cancelled && (p.monitor == NotWaiting || p.monitor.WaitingFor? || p.monitor == Ended))
          && (p.monitor == Backoff ==> !p.cancelled))
  }

  lemma StepSole(maxRestarts: int, s: Life, l: Label)
    requires Sole(s) && Enabled(s, l) && (l.Start? ==> AllDone(s))
    ensures Sole(Apply(maxRestarts, s, l))
  {
    var n := |s.processes|;
    if l.Start? && n > 0 { assert s.processes[n - 1].monitor == Done; }
    match l {
      case Await(i, hangs) => AwaitSole(maxRestarts, s, i, hangs);
      case Wake(i) => WakeSole(maxRestarts, s, i);
      case Relaunch(i, launches) => RelaunchSole(maxRestarts, s, i, launches);
      case _ =>
        hide Woken;
        StepSound(maxRestarts, s, l);
    }
  }

  lemma AwaitSole(maxRestarts: int, s: Life, i: nat, hangs: bool)
    requires Sole(s) && Enabled(s, Await(i, hangs))
    ensures Sole(Apply(maxRestarts, s, Await(i, hangs)))
  {
    AwaitSound(maxRestarts, s, i, hangs);
  }

  lemma WakeSole(maxRestarts: int, s: Life, i: nat)
    requires Sole(s) && Enabled(s, Wake(i))
    ensures Sole(Apply(maxRestarts, s, Wake(i)))
  {
    hide Woken;
    WakeSound(maxRestarts, s, i);
  }

  lemma RelaunchSole(maxRestarts: int, s: Life, i: nat, launches: bool)
    requires Sole(s) && Enabled(s, Relaunch(i, launches))
    ensures Sole(Apply(maxRestarts, s, Relaunch(i, launches)))
  {
    RelaunchSound(maxRestarts, s, i, launches);
  }

  /** In every run without overlapping starts, at most one plugin process is alive at any moment. */
  lemma {:induction false} RunSole(maxRestarts: int, s: Life, labels: seq<Label>)
    requires Sole(s) && CanRun(maxRestarts, s, labels) && NoOverlap(maxRestarts, s, labels)
    ensures Sole(Run(maxRestarts, s, labels)) && AtMostOneAlive(Run(maxRestarts, s, labels))
    decreases labels
  {
    if labels != [] {
      StepSole(maxRestarts, s, labels[0]);
      RunSole(maxRestarts, Apply(maxRestarts, s, labels[0]), labels[1..]);
    }
  }

  // ---- When a stop is final ----

  predicate NoneInBackoff(s: Life) {
    forall i :: 0 <= i < |s.processes| ==> s.processes[i].monitor != Backoff
  }

  /** The state a successful Stop leaves. */
  predicate Stopped(s: Life) {
    s.current.Some? && s.current.value < |s.processes| && !s.running && s.processes[s.current.value].cancelled
  }

  ghost predicate NoStarts(labels: seq<Label>) {
    forall i :: 0 <= i < |labels| ==> !labels[i].Start?
  }

  /** However the run goes on without a Start, nothing is launched and nothing counts as running. */
  ghost predicate StaysStopped(maxRestarts: int, s: Life)
    requires Sound(s)
  {
    forall labels :: CanRun(maxRestarts, s, labels) && NoStarts(labels) ==>
      !Run(maxRestarts, s, labels).running && |Run(maxRestarts, s, labels).processes| == |s.processes|
  }

  lemma StopStops(maxRestarts: int, s: Life)
    requires Sound(s) && s.running
    ensures Sound(Apply(maxRestarts, s, Stop)) && Stopped(Apply(maxRestarts, s, Stop))
    ensures NoneInBackoff(Apply(maxRestarts, s, Stop)) <==> NoneInBackoff(s)
  {
    var z, i := Apply(maxRestarts, s, Stop), s.current.value;
    assert forall j :: 0 <= j < |s.processes| ==> z.processes[j].monitor == s.processes[j].monitor;
  }

  lemma StepStopped(maxRestarts: int, s: Life, l: Label)
    requires Sound(s) && Stopped(s) && NoneInBackoff(s) && Enabled(s, l) && !l.Start?
    ensures Stopped(Apply(maxRestarts, s, l)) && NoneInBackoff(Apply(maxRestarts, s, l))
    ensures |Apply(maxRestarts, s, l).processes| == |s.processes|
  {
  }

  lemma {:induction false} RunStopped(maxRestarts: int, s: Life, labels: seq<Label>)
    requires Sound(s) && Stopped(s) && NoneInBackoff(s) && CanRun(maxRestarts, s, labels) && NoStarts(labels)
    ensures Stopped(Run(maxRestarts, s, labels)) && |Run(maxRestarts, s, labels).processes| == |s.processes|
    decreases labels
  {
    if labels != [] {
      StepSound(maxRestarts, s, labels[0]);
      StepStopped(maxRestarts, s, labels[0]);
      assert NoStarts(labels[1..]);
      RunStopped(maxRestarts, Apply(maxRestarts, s, labels[0]), labels[1..]);
    }
  }

  /** A successful Stop is final until the next Start, whatever happened before, overlapping starts
      included, if and only if no monitor is in backoff: only a restart already charged undoes it. */
  lemma StopFinalExactly(maxRestarts: int, s: Life)
    requires Sound(s) && s.running
    ensures Sound(Apply(maxRestarts, s, Stop))
    ensures StaysStopped(maxRestarts, Apply(maxRestarts, s, Stop)) <==> NoneInBackoff(s)
  {
    var z := Apply(maxRestarts, s, Stop);
    StopStops(maxRestarts, s);
    if NoneInBackoff(s) {
      forall labels | CanRun(maxRestarts, z, labels) && NoStarts(labels)
        ensures !Run(maxRestarts, z, labels).running && |Run(maxRestarts, z, labels).processes| == |z.processes|
      {
        RunStopped(maxRestarts, z, labels);
      }
    } else {
      var i :| 0 <= i < |z.processes| && z.processes[i].monitor == Backoff;
      var l := Relaunch(i, true);
      StepSound(maxRestarts, z, l);
      OneStep(maxRestarts, z, l, []);
      assert NoStarts([l] + []);
      assert Run(maxRestarts, z, [l] + []).running;
    }
  }

  /** In runs without overlapping starts every successful Stop is final. */
  lemma StopIsFinal(maxRestarts: int, s: Life)
    requires Sole(s) && s.running
    ensures Sound(Apply(maxRestarts, s, Stop)) && StaysStopped(maxRestarts, Apply(maxRestarts, s, Stop))
  {
    StopFinalExactly(maxRestarts, s);
  }

  // ---- Exactly when a start may overlap ----

  predicate NoneAlive(s: Life) {
    forall i :: 0 <= i < |s.processes| ==> !s.processes[i].alive
  }

  predicate NoneWaits(s: Life) {
    forall i :: 0 <= i < |s.processes| ==> !s.processes[i].monitor.WaitingFor? && s.processes[i].monitor != Ended
  }

  /** Every monitor has finished, or will never. */
  predicate AllOver(s: Life) {
    forall i :: 0 <= i < |s.processes| ==> s.processes[i].monitor == Done || s.processes[i].monitor.Hanging?
  }

  /** What keeps a Start harmless: no process lives and no monitor sleeps; a monitor that already waits, for
      a process that has exited, or is back from waiting, finds the restart budget used up; and monitors
      that do not wait yet, so that they will wait for the new process, find at most one restart left. */
  predicate HarmlessStart(maxRestarts: int, s: Life) {
    && NoneAlive(s) && NoneInBackoff(s)
    && (s.restarts >= maxRestarts || NoneWaits(s))
    && (s.restarts >= maxRestarts - 1 || AllOver(s))
  }

  /** Every Start is refused, or fails, or is harmless. */
  ghost predicate HarmlessStarts(maxRestarts: int, s: Life, labels: seq<Label>)
    requires Sound(s) && CanRun(maxRestarts, s, labels)
    decreases labels
  {
    StepSoundHere(maxRestarts, s, labels);
    labels == []
    || ((labels[0].Start? ==> s.running || !labels[0].launches || HarmlessStart(maxRestarts, s))
        && HarmlessStarts(maxRestarts, Apply(maxRestarts, s, labels[0]), labels[1..]))
  }

  /** However the run goes on with harmless starts, it keeps to one process. */
  ghost predicate StaysSingle(maxRestarts: int, s: Life)
    requires Sound(s)
  {
    forall labels :: CanRun(maxRestarts, s, labels) && HarmlessStarts(maxRestarts, s, labels) ==>
      AtMostOneAlive(Run(maxRestarts, s, labels))
  }

  /** With at most one restart left: only the last process can be alive; while it is, its own monitor
      is outstanding and no other can bring up a second process; and only one monitor ever sleeps. */
  ghost predicate Tame(maxRestarts: int, s: Life) {
    var n := |s.processes|;
    && Sound(s) && s.restarts >= maxRestarts - 1
    && (n > 0 ==> s.current == Some(n - 1))
    && (forall i :: 0 <= i < n - 1 ==> !s.processes[i].alive)
    && (n > 0 && s.processes[n - 1].alive ==>
          && NoneInBackoff(s)
          && (s.processes[n - 1].monitor == NotWaiting || s.processes[n - 1].monitor == WaitingFor(n - 1))
          && (s.restarts < maxRestarts ==>
                forall i :: 0 <= i < n ==>
                  && s.processes[i].monitor != Ended
                  && (s.processes[i].monitor.WaitingFor? ==> s.processes[i].monitor.j == n - 1)))
    && (s.restarts < maxRestarts ==> NoneInBackoff(s))
    && forall i, j :: 0 <= i < j < n ==> !(s.processes[i].monitor == Backoff && s.processes[j].monitor == Backoff)
  }

  lemma StepTame(maxRestarts: int, s: Life, l: Label)
    requires Tame(maxRestarts, s) && Enabled(s, l)
    requires l.Start? ==> s.running || !l.launches || HarmlessStart(maxRestarts, s)
    ensures Tame(maxRestarts, Apply(maxRestarts, s, l))
  {
    hide Tame, HarmlessStart, Apply;
    match l {
      case Start(launches) => StartTame(maxRestarts, s, launches);
      case Reap(i) => ReapTame(maxRestarts, s, i);
      case Relaunch(i, launches) => RelaunchTame(maxRestarts, s, i, launches);
      case Await(i, hangs) => AwaitTame(maxRestarts, s, i, hangs);
      case Wake(i) => WakeTame(maxRestarts, s, i);
      case Exit(i) => ExitTame(maxRestarts, s, i);
      case Stop => StopTame(maxRestarts, s);
    }
  }

  lemma AwaitTame(maxRestarts: int, s: Life, i: nat, hangs: bool)
    requires Tame(maxRestarts, s) && Enabled(s, Await(i, hangs))
    ensures Tame(maxRestarts, Apply(maxRestarts, s, Await(i, hangs)))
  {
    AwaitSound(maxRestarts, s, i, hangs);
  }

  lemma WakeTame(maxRestarts: int, s: Life, i: nat)
    requires Tame(maxRestarts, s) && Enabled(s, Wake(i))
    ensures Tame(maxRestarts, Apply(maxRestarts, s, Wake(i)))
  {
    hide Woken;
    WakeSound(maxRestarts, s, i);
  }

  lemma ExitTame(maxRestarts: int, s: Life, i: nat)
    requires Tame(maxRestarts, s) && Enabled(s, Exit(i))
    ensures Tame(maxRestarts, Apply(maxRestarts, s, Exit(i)))
  {
    StepSound(maxRestarts, s, Exit(i));
  }

  lemma StopTame(maxRestarts: int, s: Life)
    requires Tame(maxRestarts, s)
    ensures Tame(maxRestarts, Apply(maxRestarts, s, Stop))
  {
    StepSound(maxRestarts, s, Stop);
  }

  lemma StartTame(maxRestarts: int, s: Life, launches: bool)
    requires Tame(maxRestarts, s) && (s.running || !launches || HarmlessStart(maxRestarts, s))
    ensures Tame(maxRestarts, Apply(maxRestarts, s, Start(launches)))
  {
    StepSound(maxRestarts, s, Start(launches));
  }

  lemma ReapTame(maxRestarts: int, s: Life, i: nat)
    requires Tame(maxRestarts, s) && Enabled(s, Reap(i))
    ensures Tame(maxRestarts, Apply(maxRestarts, s, Reap(i)))
  {
    StepSound(maxRestarts, s, Reap(i));
  }

  lemma RelaunchTame(maxRestarts: int, s: Life, i: nat, launches: bool)
    requires Tame(maxRestarts, s) && In(s, i, Backoff)
    ensures Tame(maxRestarts, Apply(maxRestarts, s, Relaunch(i, launches)))
  {
    StepSound(maxRestarts, s, Relaunch(i, launches));
    assert s.processes[i].monitor == Backoff;
  }

  /** What harmless starts keep: the state of a run without overlapping starts, or a tame one. */
  ghost predicate Calm(maxRestarts: int, s: Life) {
    Sole(s) || Tame(maxRestarts, s)
  }

  lemma CalmStart(maxRestarts: int, s: Life)
    requires Sole(s) && !s.running && HarmlessStart(maxRestarts, s)
    ensures Calm(maxRestarts, Apply(maxRestarts, s, Start(true)))
  {
    var z := Apply(maxRestarts, s, Start(true));
    StepSound(maxRestarts, s, Start(true));
    if AllDone(s) {
      StepSole(maxRestarts, s, Start(true));
    } else {
      assert !AllOver(s);
      assert Tame(maxRestarts, z);
    }
  }

  lemma StepCalm(maxRestarts: int, s: Life, l: Label)
    requires Calm(maxRestarts, s) && Enabled(s, l)
    requires l.Start? ==> s.running || !l.launches || HarmlessStart(maxRestarts, s)
    ensures Calm(maxRestarts, Apply(maxRestarts, s, l))
  {
    hide Tame;
    if !Sole(s) {
      TameIsSound(maxRestarts, s);
      StepTame(maxRestarts, s, l);
    } else if l.Start? {
      if !s.running && l.launches { CalmStart(maxRestarts, s); } else { assert Apply(maxRestarts, s, l) == s; }
    } else {
      StepSole(maxRestarts, s, l);
    }
  }

  lemma TameIsSound(maxRestarts: int, s: Life)
    requires Tame(maxRestarts, s)
    ensures Sound(s) && AtMostOneAlive(s)
  {
  }

  lemma CalmIsSingle(maxRestarts: int, s: Life)
    requires Calm(maxRestarts, s)
    ensures Sound(s) && AtMostOneAlive(s)
  {
  }

  /** In every run in which all starts are harmless, overlapping ones included, at most one process is
      alive at any moment. */
  lemma {:induction false} RunCalm(maxRestarts: int, s: Life, labels: seq<Label>)
    requires Sound(s) && Calm(maxRestarts, s) && CanRun(maxRestarts, s, labels)
    requires HarmlessStarts(maxRestarts, s, labels)
    ensures Calm(maxRestarts, Run(maxRestarts, s, labels)) && AtMostOneAlive(Run(maxRestarts, s, labels))
    decreases labels
  {
    hide Calm, Apply, Enabled, HarmlessStart;
    CalmIsSingle(maxRestarts, s);
    if labels != [] {
      StepSoundHere(maxRestarts, s, labels);
      StepCalm(maxRestarts, s, labels[0]);
      RunCalm(maxRestarts, Apply(maxRestarts, s, labels[0]), labels[1..]);
    }
  }

  lemma OneStep(maxRestarts: int, s: Life, l: Label, rest: seq<Label>)
    requires Sound(s) && Enabled(s, l) && !l.Start?
    requires Sound(Apply(maxRestarts, s, l)) && CanRun(maxRestarts, Apply(maxRestarts, s, l), rest)
    requires HarmlessStarts(maxRestarts, Apply(maxRestarts, s, l), rest)
    ensures CanRun(maxRestarts, s, [l] + rest) && HarmlessStarts(maxRestarts, s, [l] + rest)
    ensures Run(maxRestarts, s, [l] + rest) == Run(maxRestarts, Apply(maxRestarts, s, l), rest)
  {
    assert ([l] + rest)[1..] == rest;
  }

  /** A monitor in backoff brings up a process beside the one that was started meanwhile. */
  lemma BackoffDoubles(maxRestarts: int, s: Life, i: nat) returns (labels: seq<Label>)
    requires Sound(s) && In(s, i, Backoff) && exists j :: 0 <= j < |s.processes| && s.processes[j].alive
    ensures CanRun(maxRestarts, s, labels) && HarmlessStarts(maxRestarts, s, labels)
    ensures !AtMostOneAlive(Run(maxRestarts, s, labels))
  {
    var l := Relaunch(i, true);
    var z := Apply(maxRestarts, s, l);
    StepSound(maxRestarts, s, l);
    OneStep(maxRestarts, s, l, []);
    var j :| 0 <= j < |s.processes| && s.processes[j].alive;
    assert z.processes[j].alive && z.processes[|s.processes|].alive;
    labels := [l] + [];
  }

  /** So does one that still has budget and finds the fields referring to the new process. */
  lemma ReapDoubles(maxRestarts: int, s: Life, i: nat) returns (labels: seq<Label>)
    requires Sound(s) && Enabled(s, Reap(i)) && ShouldRestart(s, maxRestarts)
    requires exists j :: 0 <= j < |s.processes| && s.processes[j].alive
    ensures CanRun(maxRestarts, s, labels) && HarmlessStarts(maxRestarts, s, labels)
    ensures !AtMostOneAlive(Run(maxRestarts, s, labels))
  {
    var j :| 0 <= j < |s.processes| && s.processes[j].alive;
    var z := Apply(maxRestarts, s, Reap(i));
    StepSound(maxRestarts, s, Reap(i));
    assert z.processes[j].alive;
    var rest := BackoffDoubles(maxRestarts, z, i);
    OneStep(maxRestarts, s, Reap(i), rest);
    labels := [Reap(i)] + rest;
  }

  /** So does one that is still to come back from waiting for a process that has exited. */
  lemma WakeDoubles(maxRestarts: int, s: Life, i: nat) returns (labels: seq<Label>)
    requires Sound(s) && Enabled(s, Wake(i)) && ShouldRestart(s, maxRestarts)
    requires exists j :: 0 <= j < |s.processes| && s.processes[j].alive
    ensures CanRun(maxRestarts, s, labels) && HarmlessStarts(maxRestarts, s, labels)
    ensures !AtMostOneAlive(Run(maxRestarts, s, labels))
  {
    var j :| 0 <= j < |s.processes| && s.processes[j].alive;
    var z := Apply(maxRestarts, s, Wake(i));
    StepSound(maxRestarts, s, Wake(i));
    assert z.processes[j].alive;
    var rest := ReapDoubles(maxRestarts, z, i);
    OneStep(maxRestarts, s, Wake(i), rest);
    labels := [Wake(i)] + rest;
  }

  /** Two monitors that sleep at once bring up two processes. */
  lemma TwoBackoffsDouble(maxRestarts: int, s: Life, i: nat, j: nat) returns (labels: seq<Label>)
    requires Sound(s) && i != j && In(s, i, Backoff) && In(s, j, Backoff)
    ensures CanRun(maxRestarts, s, labels) && HarmlessStarts(maxRestarts, s, labels)
    ensures !AtMostOneAlive(Run(maxRestarts, s, labels))
  {
    var l := Relaunch(i, true);
    var z := Apply(maxRestarts, s, l);
    StepSound(maxRestarts, s, l);
    assert z.processes[|s.processes|].alive;
    var rest := BackoffDoubles(maxRestarts, z, j);
    OneStep(maxRestarts, s, l, rest);
    labels := [l] + rest;
  }

  /** The current process ends, and its own monitor takes a restart. */
  lemma EndsAndRestarts(maxRestarts: int, s: Life, k: nat) returns (z: Life)
    requires Sound(s) && s.current == Some(k) && In(s, k, NotWaiting)
    requires s.processes[k].alive && !s.processes[k].cancelled && s.restarts < maxRestarts
    ensures Sound(z) && z.current == Some(k) && z.restarts == s.restarts + 1 && |z.processes| == |s.processes|
    ensures z.processes[k] == Process(false, false, true, Backoff)
    ensures forall i :: 0 <= i < |s.processes| && i != k && s.processes[i].monitor == NotWaiting ==>
              z.processes[i].monitor == NotWaiting
    ensures forall rest :: CanRun(maxRestarts, z, rest) && HarmlessStarts(maxRestarts, z, rest) ==>
              && CanRun(maxRestarts, s, Ending(k) + rest) && HarmlessStarts(maxRestarts, s, Ending(k) + rest)
              && Run(maxRestarts, s, Ending(k) + rest) == Run(maxRestarts, z, rest)
  {
    var s1 := Apply(maxRestarts, s, Await(k, false));
    StepSound(maxRestarts, s, Await(k, false));
    var s2 := Apply(maxRestarts, s1, Exit(k));
    StepSound(maxRestarts, s1, Exit(k));
    var s3 := Apply(maxRestarts, s2, Wake(k));
    StepSound(maxRestarts, s2, Wake(k));
    z := Apply(maxRestarts, s3, Reap(k));
    StepSound(maxRestarts, s3, Reap(k));
    forall rest | CanRun(maxRestarts, z, rest) && HarmlessStarts(maxRestarts, z, rest)
      ensures CanRun(maxRestarts, s, Ending(k) + rest) && HarmlessStarts(maxRestarts, s, Ending(k) + rest)
      ensures Run(maxRestarts, s, Ending(k) + rest) == Run(maxRestarts, z, rest)
    {
      OneStep(maxRestarts, s3, Reap(k), rest);
      OneStep(maxRestarts, s2, Wake(k), [Reap(k)] + rest);
      OneStep(maxRestarts, s1, Exit(k), [Wake(k)] + ([Reap(k)] + rest));
      OneStep(maxRestarts, s, Await(k, false), [Exit(k)] + ([Wake(k)] + ([Reap(k)] + rest)));
      assert Ending(k) + rest == [Await(k, false)] + ([Exit(k)] + ([Wake(k)] + ([Reap(k)] + rest)));
    }
  }

  function Ending(k: nat): seq<Label> {
    [Await(k, false), Exit(k), Wake(k), Reap(k)]
  }

  /** A monitor that calls Wait when another is back from it already takes a restart as well. */
  lemma LateWaiterDoubles(maxRestarts: int, s: Life, i: nat, k: nat) returns (labels: seq<Label>)
    requires Sound(s) && i != k && s.current == Some(k) && In(s, i, NotWaiting) && In(s, k, NotWaiting)
    requires s.processes[k].alive && !s.processes[k].cancelled && s.restarts + 2 <= maxRestarts
    ensures CanRun(maxRestarts, s, labels) && HarmlessStarts(maxRestarts, s, labels)
    ensures !AtMostOneAlive(Run(maxRestarts, s, labels))
  {
    hide Woken, Sound, HarmlessStart, Ending;
    var z := EndsAndRestarts(maxRestarts, s, k);
    labels := LateWaiterRestarts(maxRestarts, z, i, k);
    labels := Ending(k) + labels;
  }

  lemma LateWaiterRestarts(maxRestarts: int, s: Life, i: nat, k: nat) returns (labels: seq<Label>)
    requires Sound(s) && i != k && s.current == Some(k) && In(s, i, NotWaiting) && s.restarts < maxRestarts
    requires k < |s.processes| && s.processes[k] == Process(false, false, true, Backoff)
    ensures CanRun(maxRestarts, s, labels) && HarmlessStarts(maxRestarts, s, labels)
    ensures !AtMostOneAlive(Run(maxRestarts, s, labels))
  {
    hide Woken;
    var s1 := Apply(maxRestarts, s, Await(i, false));
    StepSound(maxRestarts, s, Await(i, false));
    var s2 := Apply(maxRestarts, s1, Reap(i));
    StepSound(maxRestarts, s1, Reap(i));
    labels := TwoBackoffsDouble(maxRestarts, s2, i, k);
    OneStep(maxRestarts, s1, Reap(i), labels);
    labels := [Reap(i)] + labels;
    OneStep(maxRestarts, s, Await(i, false), labels);
    labels := [Await(i, false)] + labels;
  }

  /** A harmful start can be followed, without any further start, by two processes at once. */
  lemma HarmfulStartDoubles(maxRestarts: int, s: Life) returns (labels: seq<Label>)
    requires Sound(s) && Calm(maxRestarts, s) && !s.running && !HarmlessStart(maxRestarts, s)
    ensures var z := Apply(maxRestarts, s, Start(true));
            && Sound(z) && CanRun(maxRestarts, z, labels) && HarmlessStarts(maxRestarts, z, labels)
            && !AtMostOneAlive(Run(maxRestarts, z, labels))
  {
    var n, z := |s.processes|, Apply(maxRestarts, s, Start(true));
    StepSound(maxRestarts, s, Start(true));
    assert z.processes[n].alive && z.current == Some(n) && forall i :: 0 <= i < n ==> z.processes[i] == s.processes[i];
    if i :| 0 <= i < n && s.processes[i].alive {
      assert z.processes[i].alive;
      labels := [];
    } else if i :| 0 <= i < n && s.processes[i].monitor == Backoff {
      labels := BackoffDoubles(maxRestarts, z, i);
    } else if s.restarts < maxRestarts && !NoneWaits(s) {
      var i :| 0 <= i < n && (s.processes[i].monitor.WaitingFor? || s.processes[i].monitor == Ended);
      if s.processes[i].monitor == Ended {
        labels := ReapDoubles(maxRestarts, z, i);
      } else {
        labels := WakeDoubles(maxRestarts, z, i);
      }
    } else {
      hide Tame;
      assert s.restarts + 2 <= maxRestarts && Sole(s) by { TameHasSpent(maxRestarts, s); }
      assert In(z, n - 1, NotWaiting);
      labels := LateWaiterDoubles(maxRestarts, z, n - 1, n);
    }
  }

  lemma TameHasSpent(maxRestarts: int, s: Life)
    ensures Tame(maxRestarts, s) ==> s.restarts >= maxRestarts - 1
  {
  }

  /** In every state that harmless starts lead to, a Start that launches is followed by at most one live
      process, come what may, if and only if it is harmless. */
  lemma OverlapSafeExactly(maxRestarts: int, s: Life)
    requires Sound(s) && Calm(maxRestarts, s) && !s.running
    ensures Sound(Apply(maxRestarts, s, Start(true)))
    ensures StaysSingle(maxRestarts, Apply(maxRestarts, s, Start(true))) <==> HarmlessStart(maxRestarts, s)
  {
    hide Calm, HarmlessStart;
    var z := Apply(maxRestarts, s, Start(true));
    StepSound(maxRestarts, s, Start(true));
    if HarmlessStart(maxRestarts, s) {
      StepCalm(maxRestarts, s, Start(true));
      forall labels | CanRun(maxRestarts, z, labels) && HarmlessStarts(maxRestarts, z, labels)
        ensures AtMostOneAlive(Run(maxRestarts, z, labels))
      {
        RunCalm(maxRestarts, z, labels);
      }
    } else {
      var labels := HarmfulStartDoubles(maxRestarts, s);
    }
  }
}
