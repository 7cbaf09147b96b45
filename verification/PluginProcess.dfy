/** The plugin process object of internal/plugins/supervisor/process.go: its fields, and its methods
    as the steps of the two machines, `Calls` for the requests in flight and `Lifecycle` for the
    processes launched. */
module PluginProcess {
  import opened Prelude
  import opened Decimal
  import Calls
  import Lifecycle

  datatype StartResult = Started | AlreadyRunning | LaunchFailed

  /** How a call ended, and with which attempt. */
  datatype CallResult = Answer(k: nat, reply: Calls.Reply) | NotRunning | LocalFailure(k: nat) | TimedOut(k: nat)

  /** Something another goroutine, the plugin or the operating system does. */
  datatype Deed = OfCalls(call: Calls.Label) | OfLife(life: Lifecycle.Label)

  /** What happens to one attempt: what others do while its request is marshalled and written, and
      whether that works; what they do while it waits, between its deadline and the withdrawal, and
      during the backoff; whether the deadline is noticed first; and whether the caller still wants an
      answer after it. */
  datatype Turn = Turn(early: seq<Deed>, writes: bool, meanwhile: seq<Deed>, expires: bool, late: seq<Deed>,
                       callerAlive: bool, asleep: seq<Deed>)

  /** Others open attempts only below this number, so that a call finds room for its retries before
      the 64-bit counter repeats. */
  const ROOM := TWO64 - 4

  /** Steps of the calls machine that do not act for attempt `k`. */
  predicate Foreign(l: Calls.Label, k: nat) {
    match l
    case Written(j) => j != k
    case FailLocally(j) => j != k
    case Expire(j) => j != k
    case Withdraw(j, _) => j != k
    case Retry(j) => j != k
    case Receive(j) => j != k
    case _ => true
  }

  predicate Possible(c: Calls.Client, l: Calls.Label, k: nat) {
    && Calls.Enabled(c, l) && Foreign(l, k) && !l.Switch? && !l.StartReader?
    && (l.Call? || l.Retry? ==> |c.attempts| < ROOM)
  }

  /** What attempt `k` can rely on while others act. */
  predicate Undisturbed(c: Calls.Client, d: Calls.Client, k: nat) {
    && k < |c.attempts| <= |d.attempts| && d.plugin == c.plugin
    && d.attempts[k].phase == c.attempts[k].phase
    && d.attempts[k].number == c.attempts[k].number && d.attempts[k].call == c.attempts[k].call
    && (|d.attempts| <= |c.attempts| || |d.attempts| <= ROOM)
  }

  lemma OthersStep(c: Calls.Client, l: Calls.Label, k: nat)
    requires k < |c.attempts| && Possible(c, l, k)
    ensures Undisturbed(c, Calls.Apply(c, l), k)
  {
  }

  function Reached(l: Calls.Label): Calls.Phase
    requires l.Written? || l.FailLocally? || l.Expire?
  {
    match l
    case Written(_) => Calls.Waiting
    case FailLocally(_) => Calls.FailedLocally
    case Expire(_) => Calls.Expired
  }

  lemma Filed(c: Calls.Client, id: string)
    requires Calls.Inv(c) && id in c.pending
    ensures c.pending[id] < |c.attempts| && id == Calls.IdOf(c.plugin, c.pending[id])
  {
  }

  lemma Extend(c: Calls.Client, labels: seq<Calls.Label>, more: seq<Calls.Label>)
    requires Calls.CanRun(c, labels) && Calls.CanRun(Calls.Run(c, labels), more)
    ensures Calls.CanRun(c, labels + more) && Calls.Run(c, labels + more) == Calls.Run(Calls.Run(c, labels), more)
    decreases labels
  {
    if labels == [] {
      assert labels + more == more;
    } else {
      assert (labels + more)[1..] == labels[1..] + more;
      Extend(Calls.Apply(c, labels[0]), labels[1..], more);
    }
  }

  lemma One(c: Calls.Client, l: Calls.Label)
    requires Calls.Enabled(c, l)
    ensures Calls.CanRun(c, [l]) && Calls.Run(c, [l]) == Calls.Apply(c, l)
  {
    assert [l][1..] == [];
  }

  lemma Next(c: Calls.Client, labels: seq<Calls.Label>, l: Calls.Label)
    requires Calls.CanRun(c, labels) && Calls.Enabled(Calls.Run(c, labels), l)
    ensures Calls.CanRun(c, labels + [l]) && Calls.Run(c, labels + [l]) == Calls.Apply(Calls.Run(c, labels), l)
  {
    One(Calls.Run(c, labels), l);
    Extend(c, labels, [l]);
  }

  class PluginProcess {
    const plugin: string
    const maxRestarts: int
    var running: bool
    var restarts: nat
    var pending: map<string, nat>
    var attempts: seq<Calls.Attempt>
    var calls: nat
    var readers: seq<Calls.Reader>
    var current: Option<nat>
    var processes: seq<Lifecycle.Process>
    ghost var starts: nat
    ghost var relaunches: nat

    ghost function Client(): Calls.Client
      reads this
    {
      Calls.Client(plugin, running, attempts, pending, readers, calls)
    }

    ghost function Life(): Lifecycle.Life
      reads this
    {
      Lifecycle.Life(running, restarts, current, processes, starts, relaunches)
    }

    /** Both machines' invariants, and one reader for each process launched. */
    ghost predicate Valid()
      reads this
    {
      && Calls.Inv(Client())
      && Lifecycle.Sound(Life()) && Lifecycle.BudgetKept(maxRestarts, Life())
      && |readers| == |processes|
    }

    constructor (plugin: string, maxRestarts: int)
      ensures Valid() && Client() == Calls.NewClient(plugin) && Life() == Lifecycle.NEW_LIFE
      ensures this.maxRestarts == maxRestarts
    {
      this.plugin, this.maxRestarts := plugin, maxRestarts;
      running, restarts, pending, attempts, calls, readers := false, 0, map[], [], 0, [];
      current, processes, starts, relaunches := None, [], 0, 0;
    }

    // ---- Starting, stopping, restarting ----

    /** Launching never asks whether something is running; a launch that fails changes nothing. */
    method StartLocked(launches: bool)
      requires Calls.Inv(Client()) && Lifecycle.Sound(Life()) && |readers| == |processes|
      modifies `running, `current, `processes, `readers
      ensures Life() == Lifecycle.Launch(old(Life()), launches)
      ensures launches ==> Client() == old(Client()).(running := true, readers := old(readers) + [Calls.Idle])
      ensures !launches ==> Client() == old(Client())
      ensures Calls.Inv(Client()) && |readers| == |processes|
    {
      if !launches { return; }
      Calls.StepKeeps(Client(), Calls.Switch(true));
      Calls.StepKeeps(Client().(running := true), Calls.StartReader);
      current := Some(|processes|);
      processes := processes + [Lifecycle.Process(true, false, false, Lifecycle.NotWaiting)];
      running := true;
      readers := readers + [Calls.Idle];
      assert Client() == Calls.Apply(old(Client()).(running := true), Calls.StartReader);
    }

    method Start(launches: bool) returns (result: StartResult)
      requires Valid()
      modifies this
      ensures Valid() && Life() == Lifecycle.Apply(maxRestarts, old(Life()), Lifecycle.Start(launches))
      ensures result == AlreadyRunning <==> old(running)
      ensures result == Started <==> !old(running) && launches
      ensures result == Started ==> Client() == old(Client()).(running := true, readers := old(readers) + [Calls.Idle])
      ensures result != Started ==> Client() == old(Client())
    {
      Lifecycle.StepSound(maxRestarts, Life(), Lifecycle.Start(launches));
      Lifecycle.StepBudget(maxRestarts, Life(), Lifecycle.Start(launches));
      if running { return AlreadyRunning; }
      StartLocked(launches);
      if !launches { return LaunchFailed; }
      starts := starts + 1;
      return Started;
    }

    method Stop() returns (ok: bool)
      requires Valid()
      modifies this
      ensures Valid() && Life() == Lifecycle.Apply(maxRestarts, old(Life()), Lifecycle.Stop)
      ensures ok == old(running)
      ensures Client() == old(Client()).(running := false)
      ensures ok ==> Lifecycle.Stopped(Life())
      ensures ok && old(Lifecycle.NoneInBackoff(Life())) ==> Lifecycle.StaysStopped(maxRestarts, Life())
    {
      Lifecycle.StepSound(maxRestarts, Life(), Lifecycle.Stop);
      Lifecycle.StepBudget(maxRestarts, Life(), Lifecycle.Stop);
      Calls.StepKeeps(Client(), Calls.Switch(false));
      ghost var was := Life();
      if !running {
        assert Client() == Calls.Apply(Client(), Calls.Switch(false));
        return false;
      }
      var i := current.value;
      processes := processes[i := processes[i].(cancelled := true)];
      running := false;
      assert Client() == Calls.Apply(old(Client()), Calls.Switch(false));
      Lifecycle.StopStops(maxRestarts, was);
      Lifecycle.StopFinalExactly(maxRestarts, was);
      return true;
    }

    /** The monitor of process `i` calls Wait for whatever process the fields refer to, even if another
        monitor is inside it already; if it has returned to one, it fails at once, or hangs where others do. */
    method BeginWait(i: nat, hangs: bool)
      requires Valid() && Lifecycle.Enabled(Life(), Lifecycle.Await(i, hangs))
      modifies `processes
      ensures Valid() && Life() == Lifecycle.Apply(maxRestarts, old(Life()), Lifecycle.Await(i, hangs))
      ensures Client() == old(Client())
    {
      Lifecycle.StepSound(maxRestarts, Life(), Lifecycle.Await(i, hangs));
      Lifecycle.StepBudget(maxRestarts, Life(), Lifecycle.Await(i, hangs));
      var j := current.value;
      var next := if hangs then Lifecycle.Hanging(j)
                  else if processes[j].waited then Lifecycle.Ended else Lifecycle.WaitingFor(j);
      processes := processes[i := processes[i].(monitor := next)];
    }

    /** Wait returns to one monitor; others inside it for the same process never come back. */
    method WaitReturns(i: nat)
      requires Valid() && Lifecycle.Enabled(Life(), Lifecycle.Wake(i))
      modifies `processes
      ensures Valid() && Life() == Lifecycle.Apply(maxRestarts, old(Life()), Lifecycle.Wake(i))
      ensures Client() == old(Client())
    {
      Lifecycle.StepSound(maxRestarts, Life(), Lifecycle.Wake(i));
      Lifecycle.StepBudget(maxRestarts, Life(), Lifecycle.Wake(i));
      processes := Lifecycle.Woken(processes, i);
    }

    /** The wait is over: nothing runs any more, and a restart is charged to the budget if the
        context in the fields is live and the budget allows. */
    method ProcessEnded(i: nat) returns (shouldRestart: bool)
      requires Valid() && Lifecycle.Enabled(Life(), Lifecycle.Reap(i))
      modifies `running, `restarts, `processes
      ensures Valid() && Life() == Lifecycle.Apply(maxRestarts, old(Life()), Lifecycle.Reap(i))
      ensures Client() == old(Client()).(running := false)
      ensures shouldRestart == Lifecycle.ShouldRestart(old(Life()), maxRestarts)
      ensures restarts == old(restarts) + if shouldRestart then 1 else 0
    {
      Lifecycle.StepSound(maxRestarts, Life(), Lifecycle.Reap(i));
      Lifecycle.StepBudget(maxRestarts, Life(), Lifecycle.Reap(i));
      Calls.StepKeeps(Client(), Calls.Switch(false));
      running := false;
      assert Client() == Calls.Apply(old(Client()), Calls.Switch(false));
      shouldRestart := current.Some? && !processes[current.value].cancelled && restarts < maxRestarts;
      if shouldRestart { restarts := restarts + 1; }
      var next := if shouldRestart then Lifecycle.Backoff else Lifecycle.Done;
      processes := processes[i := processes[i].(monitor := next)];
    }

    /** After the backoff the process is launched, whether or not something runs by then. */
    method RestartAfterBackoff(i: nat, launches: bool)
      requires Valid() && Lifecycle.In(Life(), i, Lifecycle.Backoff)
      modifies this
      ensures Valid() && Life() == Lifecycle.Apply(maxRestarts, old(Life()), Lifecycle.Relaunch(i, launches))
      ensures launches ==> Client() == old(Client()).(running := true, readers := old(readers) + [Calls.Idle])
      ensures !launches ==> Client() == old(Client())
      ensures restarts == old(restarts)
    {
      Lifecycle.StepSound(maxRestarts, Life(), Lifecycle.Relaunch(i, launches));
      Lifecycle.StepBudget(maxRestarts, Life(), Lifecycle.Relaunch(i, launches));
      processes := processes[i := processes[i].(monitor := Lifecycle.Done)];
      StartLocked(launches);
      relaunches := relaunches + 1;
    }

    // ---- Replies ----

    /** A reply is handed to the attempt that waits under its id, at most once, and never blocks its
        reader; any other reply disappears. */
    method HandleMessage(r: nat, reply: Calls.Reply) returns (ghost labels: seq<Calls.Label>)
      requires Valid() && r < |readers| && readers[r].Idle?
      modifies `pending, `attempts, `readers
      ensures Valid() && Life() == old(Life())
      ensures Calls.CanRun(old(Client()), labels) && Client() == Calls.Run(old(Client()), labels)
      ensures reply.id !in old(pending) ==> Client() == old(Client())
      ensures reply.id in old(pending) ==>
                var k := old(pending)[reply.id];
                && k < |old(attempts)| && reply.id == Calls.IdOf(plugin, k)
                && old(attempts)[k].channel == []
                && attempts == old(attempts)[k := old(attempts)[k].(channel := [reply], sent := 1)]
                && pending == old(pending) - {reply.id} && readers == old(readers)
    {
      hide Calls.Inv, Calls.Run, Calls.CanRun, Lifecycle.Sound, Lifecycle.BudgetKept;
      ghost var c := Client();
      One(c, Calls.Claim(r, reply));
      labels := [Calls.Claim(r, reply)];
      Calls.StepKeeps(c, Calls.Claim(r, reply));
      if reply.id !in pending { return; }
      Filed(c, reply.id);
      var k := pending[reply.id];
      pending := pending - {reply.id};
      readers := readers[r := Calls.Holding(k, reply)];
      ghost var d := Client();
      assert d == Calls.Apply(c, Calls.Claim(r, reply));
      Calls.HolderFindsRoom(d, r);
      Calls.StepKeeps(d, Calls.Deliver(r));
      Next(c, labels, Calls.Deliver(r));
      labels := labels + [Calls.Deliver(r)];
      attempts := attempts[k := attempts[k].(channel := attempts[k].channel + [reply], sent := attempts[k].sent + 1)];
      readers := readers[r := Calls.Idle];
      assert Client() == Calls.Apply(d, Calls.Deliver(r));
      assert attempts[k].channel == [reply];
      assert readers == old(readers);
    }

    // ---- Calls ----

    /** The locked section that opens an attempt. `previous` is the attempt this one retries. */
    method BeginAttempt(previous: Option<nat>, attempt: nat) returns (k: Option<nat>, ghost l: Calls.Label)
      requires Valid() && |attempts| < TWO64 - 1
      requires previous.None? ==> attempt == 1
      requires previous.Some? ==> Calls.InPhase(Client(), previous.value, Calls.Retrying)
                                  && attempts[previous.value].number + 1 == attempt
      modifies `pending, `attempts, `calls
      ensures Valid() && Life() == old(Life())
      ensures l == (if previous.None? then Calls.Call else Calls.Retry(previous.value))
      ensures Calls.Enabled(old(Client()), l) && Client() == Calls.Apply(old(Client()), l)
      ensures !running ==> k == None && |attempts| == |old(attempts)| && pending == old(pending)
      ensures running ==> k == Some(|old(attempts)|) && |attempts| == |old(attempts)| + 1
                          && attempts[|old(attempts)|].number == attempt
                          && attempts[|old(attempts)|].phase == Calls.Registered
                          && pending == old(pending)[Calls.IdOf(plugin, |old(attempts)|) := |old(attempts)|]
    {
      hide Calls.Inv, Lifecycle.Sound, Lifecycle.BudgetKept;
      ghost var c := Client();
      l := if previous.None? then Calls.Call else Calls.Retry(previous.value);
      Calls.StepKeeps(c, l);
      var call := calls;
      if previous.Some? {
        var j := previous.value;
        call := attempts[j].call;
        attempts := attempts[j := attempts[j].(phase := Calls.Superseded)];
      } else {
        calls := calls + 1;
      }
      if !running { return None, l; }
      var n := |attempts|;
      var id := Calls.IdOf(plugin, n);
      attempts := attempts + [Calls.Attempt(call, attempt, Calls.Registered, [], 0)];
      pending := pending[id := n];
      return Some(n), l;
    }

    /** The end of one wait: the entry is withdrawn. */
    method DeletePending(k: nat, callerAlive: bool) returns (again: bool)
      requires Valid() && Calls.InPhase(Client(), k, Calls.Expired)
      modifies `pending, `attempts
      ensures Valid() && Life() == old(Life())
      ensures Client() == Calls.Apply(old(Client()), Calls.Withdraw(k, callerAlive))
      ensures Calls.IdOf(plugin, k) !in pending
      ensures again == (old(attempts)[k].number < Calls.MAX_ATTEMPTS && callerAlive)
      ensures attempts == old(attempts)[k := old(attempts)[k].(phase := if again then Calls.Retrying else Calls.GaveUp)]
    {
      Calls.StepKeeps(Client(), Calls.Withdraw(k, callerAlive));
      pending := pending - {Calls.IdOf(plugin, k)};
      again := attempts[k].number < Calls.MAX_ATTEMPTS && callerAlive;
      attempts := attempts[k := attempts[k].(phase := if again then Calls.Retrying else Calls.GaveUp)];
    }

    /** An attempt moves on without touching anything shared. */
    method Mark(l: Calls.Label)
      requires Valid() && (l.Written? || l.FailLocally? || l.Expire?) && Calls.Enabled(Client(), l)
      modifies `attempts
      ensures Valid() && Life() == old(Life())
      ensures Client() == Calls.Apply(old(Client()), l)
      ensures attempts == old(attempts)[l.k := old(attempts)[l.k].(phase := Reached(l))]
    {
      Calls.StepKeeps(Client(), l);
      attempts := attempts[l.k := attempts[l.k].(phase := Reached(l))];
    }

    /** Others act, while attempt `k` rests; deeds that are not possible do not happen. */
    method Others(k: nat, deeds: seq<Deed>) returns (ghost labels: seq<Calls.Label>)
      requires Valid() && k < |attempts|
      modifies this
      ensures Valid() && Undisturbed(old(Client()), Client(), k)
      ensures Calls.CanRun(old(Client()), labels) && Client() == Calls.Run(old(Client()), labels)
    {
      ghost var c := Client();
      labels := [];
      for n := 0 to |deeds|
        invariant Valid() && Undisturbed(c, Client(), k)
        invariant Calls.CanRun(c, labels) && Client() == Calls.Run(c, labels)
      {
        ghost var d := Client();
        match deeds[n] {
          case OfCalls(l) => OtherCall(k, l);
            if Possible(d, l, k) { Next(c, labels, l); labels := labels + [l]; }
          case OfLife(l) =>
            var more := OtherLife(l);
            Extend(c, labels, more);
            labels := labels + more;
        }
      }
    }

    method OtherCall(k: nat, l: Calls.Label)
      requires Valid() && k < |attempts|
      modifies `pending, `attempts, `calls, `readers
      ensures Valid() && Life() == old(Life())
      ensures Client() == if Possible(old(Client()), l, k) then Calls.Apply(old(Client()), l) else old(Client())
      ensures Undisturbed(old(Client()), Client(), k)
    {
      var c := Calls.Client(plugin, running, attempts, pending, readers, calls);
      if Possible(c, l, k) {
        Calls.StepKeeps(c, l);
        OthersStep(c, l, k);
        var d := Calls.Apply(c, l);
        pending, attempts, calls, readers := d.pending, d.attempts, d.calls, d.readers;
      }
    }

    method OtherLife(l: Lifecycle.Label) returns (ghost labels: seq<Calls.Label>)
      requires Valid()
      modifies this
      ensures Valid()
      ensures Lifecycle.Enabled(old(Life()), l) ==> Life() == Lifecycle.Apply(maxRestarts, old(Life()), l)
      ensures !Lifecycle.Enabled(old(Life()), l) ==> Life() == old(Life())
      ensures attempts == old(attempts) && pending == old(pending) && calls == old(calls)
      ensures Calls.CanRun(old(Client()), labels) && Client() == Calls.Run(old(Client()), labels)
    {
      hide Calls.Inv, Lifecycle.BudgetKept, Calls.Run, Calls.CanRun, Lifecycle.Woken, Lifecycle.Launch;
      ghost var c := Client();
      match l {
        case Start(launches) => var result := Start(launches);
        case Stop => var ok := Stop();
        case Exit(i) =>
          if i < |processes| && processes[i].alive {
            Lifecycle.StepSound(maxRestarts, Life(), l);
            Lifecycle.StepBudget(maxRestarts, Life(), l);
            processes := processes[i := processes[i].(alive := false)];
          }
        case Await(i, hangs) =>
          var life := Lifecycle.Life(running, restarts, current, processes, 0, 0);
          if i < |processes| && processes[i].monitor == Lifecycle.NotWaiting && (hangs ==> Lifecycle.SomeHang(life)) {
            BeginWait(i, hangs);
          }
        case Wake(i) =>
          if i < |processes| {
            var m := processes[i].monitor;
            if m.WaitingFor? && !processes[m.j].alive { WaitReturns(i); }
          }
        case Reap(i) =>
          if i < |processes| && processes[i].monitor == Lifecycle.Ended { var restart := ProcessEnded(i); }
        case Relaunch(i, launches) =>
          if i < |processes| && processes[i].monitor == Lifecycle.Backoff { RestartAfterBackoff(i, launches); }
      }
      One(c, Calls.Switch(running));
      labels := [Calls.Switch(running)];
      if readers != c.readers {
        Next(c, labels, Calls.StartReader);
        labels := labels + [Calls.StartReader];
      }
    }

    /** The wait of one attempt: it ends with the reply in the attempt's channel, or with the entry
        withdrawn. */
    method AwaitReply(k: nat, turn: Turn)
      returns (reply: Option<Calls.Reply>, again: bool, ghost labels: seq<Calls.Label>)
      requires Valid() && Calls.InPhase(Client(), k, Calls.Waiting)
      modifies this
      ensures Valid()
      ensures Calls.CanRun(old(Client()), labels) && Client() == Calls.Run(old(Client()), labels)
      ensures |attempts| >= |old(attempts)| && (|attempts| == |old(attempts)| || |attempts| <= ROOM)
      ensures attempts[k].number == old(attempts)[k].number
      ensures reply.Some? ==>
                attempts[k].phase == Calls.Answered(reply.value) && reply.value.id == Calls.IdOf(plugin, k)
      ensures reply.None? ==>
                && Calls.IdOf(plugin, k) !in pending
                && again == (attempts[k].number < Calls.MAX_ATTEMPTS && turn.callerAlive)
                && attempts[k].phase == if again then Calls.Retrying else Calls.GaveUp
    {
      hide Valid, Calls.Run, Calls.CanRun, Calls.Apply;
      ghost var c := Client();
      again := false;
      labels := Others(k, turn.meanwhile);
      if attempts[k].channel != [] && !turn.expires {
        Next(c, labels, Calls.Receive(k));
        var r := Receive(k);
        return Some(r), again, labels + [Calls.Receive(k)];
      }
      Next(c, labels, Calls.Expire(k));
      Mark(Calls.Expire(k));
      labels := labels + [Calls.Expire(k)];
      var more := Others(k, turn.late);
      Extend(c, labels, more);
      labels := labels + more;
      Next(c, labels, Calls.Withdraw(k, turn.callerAlive));
      again := DeletePending(k, turn.callerAlive);
      return None, again, labels + [Calls.Withdraw(k, turn.callerAlive)];
    }

    /** An attempt opens, unless nothing runs, and its request is written or fails, with others at work. */
    method Open(previous: Option<nat>, attempt: nat, turn: Turn)
      returns (k: Option<nat>, ghost labels: seq<Calls.Label>)
      requires Valid() && |attempts| < TWO64 - 1
      requires previous.None? ==> attempt == 1
      requires previous.Some? ==> Calls.InPhase(Client(), previous.value, Calls.Retrying)
                                  && attempts[previous.value].number + 1 == attempt
      modifies this
      ensures Valid()
      ensures Calls.CanRun(old(Client()), labels) && Client() == Calls.Run(old(Client()), labels)
      ensures k.None? ==> !old(running) && !running && |attempts| == |old(attempts)| && pending == old(pending)
      ensures k.Some? ==>
                && old(running) && k.value == |old(attempts)| < |attempts|
                && (|attempts| == |old(attempts)| + 1 || |attempts| <= ROOM)
                && attempts[k.value].number == attempt
                && attempts[k.value].phase == if turn.writes then Calls.Waiting else Calls.FailedLocally
    {
      hide Valid, Calls.Run, Calls.CanRun, Calls.Apply;
      ghost var c := Client();
      ghost var l;
      k, l := BeginAttempt(previous, attempt);
      One(c, l);
      labels := [l];
      if k.None? { return k, labels; }
      var more := Others(k.value, turn.early);
      Extend(c, labels, more);
      labels := labels + more;
      if turn.writes {
        Next(c, labels, Calls.Written(k.value));
        Mark(Calls.Written(k.value));
        labels := labels + [Calls.Written(k.value)];
      } else {
        Next(c, labels, Calls.FailLocally(k.value));
        Mark(Calls.FailLocally(k.value));
        labels := labels + [Calls.FailLocally(k.value)];
      }
    }

    /** A whole call, with anything happening around it. It answers with the reply that carries the
        id of its last attempt, or says why not; a timed-out attempt leaves no entry behind, and the
        call gives up early only for a caller that has gone. */
    method CallWithRetry(previous: Option<nat>, attempt: nat, turns: nat -> Turn)
      returns (result: CallResult, ghost labels: seq<Calls.Label>)
      requires Valid() && 1 <= attempt <= Calls.MAX_ATTEMPTS && |attempts| < ROOM + attempt
      requires previous.None? <==> attempt == 1
      requires previous.Some? ==> Calls.InPhase(Client(), previous.value, Calls.Retrying)
                                  && attempts[previous.value].number + 1 == attempt
      modifies this
      ensures Valid()
      ensures Calls.CanRun(old(Client()), labels) && Client() == Calls.Run(old(Client()), labels)
      ensures !old(running) ==> result == NotRunning && |attempts| == |old(attempts)| && pending == old(pending)
      ensures result.NotRunning? ==> !running
      ensures old(running) && !turns(attempt).writes ==> result == LocalFailure(|old(attempts)|)
      ensures !result.NotRunning? ==> |old(attempts)| <= result.k < |attempts| && attempts[result.k].number >= attempt
      ensures result.Answer? ==> attempts[result.k].phase == Calls.Answered(result.reply)
                                 && result.reply.id == Calls.IdOf(plugin, result.k)
      ensures result.LocalFailure? ==> attempts[result.k].phase == Calls.FailedLocally
                                       && !turns(attempts[result.k].number).writes
      ensures result.TimedOut? ==> attempts[result.k].phase == Calls.GaveUp && Calls.IdOf(plugin, result.k) !in pending
                                   && (attempts[result.k].number == Calls.MAX_ATTEMPTS
                                       || !turns(attempts[result.k].number).callerAlive)
      decreases Calls.MAX_ATTEMPTS - attempt
    {
      hide Valid, Calls.Run, Calls.CanRun, Calls.Apply;
      ghost var c := Client();
      var turn := turns(attempt);
      var begun;
      begun, labels := Open(previous, attempt, turn);
      if begun.None? { return NotRunning, labels; }
      var k := begun.value;
      if !turn.writes { return LocalFailure(k), labels; }
      ghost var more;
      var reply, again;
      reply, again, more := AwaitReply(k, turn);
      Extend(c, labels, more);
      labels := labels + more;
      if reply.Some? { return Answer(k, reply.value), labels; }
      if !again { return TimedOut(k), labels; }
      more := Others(k, turn.asleep);
      Extend(c, labels, more);
      labels := labels + more;
      result, more := CallWithRetry(Some(k), attempt + 1, turns);
      Extend(c, labels, more);
      labels := labels + more;
    }

    method Receive(k: nat) returns (reply: Calls.Reply)
      requires Valid() && Calls.Enabled(Client(), Calls.Receive(k))
      modifies `attempts
      ensures Valid() && Life() == old(Life()) && Client() == Calls.Apply(old(Client()), Calls.Receive(k))
      ensures |attempts| == |old(attempts)| && attempts[k].number == old(attempts)[k].number
      ensures attempts[k].phase == Calls.Answered(reply) && reply.id == Calls.IdOf(plugin, k)
    {
      Calls.StepKeeps(Client(), Calls.Receive(k));
      assert Calls.AttemptOk(Client(), k);
      reply := attempts[k].channel[0];
      attempts := attempts[k := attempts[k].(phase := Calls.Answered(reply), channel := attempts[k].channel[1..])];
    }
  }
}
