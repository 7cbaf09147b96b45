/** The JSON-RPC client side of a plugin process: `callWithRetry`, `handleMessage` and
    `deletePending` of internal/plugins/supervisor/process.go, at the granularity of its lock.

    Callers, readers and the clock interleave freely; the plugin may send any reply, with any id,
    at any time and any number of times. An attempt is numbered by the value its call drew from
    the counter, and owns one channel of capacity 1. */
module Calls {
  import opened Prelude
  import opened Decimal

  const MAX_ATTEMPTS := 3

  /** A response message; `body` stands for its result or error. */
  datatype Reply = Reply(id: string, body: int)

  /** `Registered`: the request is being written. `Expired`: timed out, entry not yet withdrawn.
      `Retrying`: sleeping before the next attempt. The last four are final. */
  datatype Phase = Registered | Waiting | Expired | Retrying
                 | Superseded | GaveUp | FailedLocally | Answered(reply: Reply)

  /** `channel` is what the channel holds; `sent` counts the sends it ever saw. */
  datatype Attempt = Attempt(call: nat, number: nat, phase: Phase, channel: seq<Reply>, sent: nat)

  /** A reader between two messages, or holding a claimed channel outside the lock. */
  datatype Reader = Idle | Holding(attempt: nat, reply: Reply)

  datatype Client = Client(plugin: string, running: bool, attempts: seq<Attempt>, pending: map<string, nat>,
                           readers: seq<Reader>, calls: nat)

  datatype Label =
    | Call
    | Written(k: nat)
    | FailLocally(k: nat)
    | Expire(k: nat)
    | Withdraw(k: nat, callerAlive: bool)
    | Retry(k: nat)
    | Receive(k: nat)
    | Claim(r: nat, reply: Reply)
    | Deliver(r: nat)
    | Switch(running: bool)
    | StartReader

  /** The id of the k-th attempt of a process: `%s-%d` of the plugin id and the counter. */
  function IdOf(plugin: string, k: nat): string {
    Tag(plugin, k + 1)
  }

  // ---- Steps ----

  predicate InPhase(c: Client, k: nat, p: Phase) {
    k < |c.attempts| && c.attempts[k].phase == p
  }

  /** A channel accepts a send without blocking only while it is empty. Counters are followed for
      the first 2^64 attempts, after which the 64-bit counter repeats. */
  predicate Enabled(c: Client, l: Label) {
    match l
    case Call => |c.attempts| < TWO64 - 1
    case Written(k) => InPhase(c, k, Registered)
    case FailLocally(k) => InPhase(c, k, Registered)
    case Expire(k) => InPhase(c, k, Waiting)
    case Withdraw(k, _) => InPhase(c, k, Expired)
    case Retry(k) => InPhase(c, k, Retrying) && |c.attempts| < TWO64 - 1
    case Receive(k) => InPhase(c, k, Waiting) && c.attempts[k].channel != []
    case Claim(r, _) => r < |c.readers| && c.readers[r].Idle?
    case Deliver(r) =>
      && r < |c.readers| && c.readers[r].Holding? && c.readers[r].attempt < |c.attempts|
      && c.attempts[c.readers[r].attempt].channel == []
    case Switch(_) => true
    case StartReader => true
  }

  /** The locked section that opens an attempt: draw a number, enter a channel under the new id. */
  function Begin(c: Client, call: nat, number: nat): Client {
    var k := |c.attempts|;
    if !c.running then c
    else c.(attempts := c.attempts + [Attempt(call, number, Registered, [], 0)],
            pending := c.pending[IdOf(c.plugin, k) := k])
  }

  function SetPhase(c: Client, k: nat, p: Phase): Client
    requires k < |c.attempts|
  {
    c.(attempts := c.attempts[k := c.attempts[k].(phase := p)])
  }

  function Apply(c: Client, l: Label): Client
    requires Enabled(c, l)
  {
    match l
    case Call => Begin(c, c.calls, 1).(calls := c.calls + 1)
    case Written(k) => SetPhase(c, k, Waiting)
    case FailLocally(k) => SetPhase(c, k, FailedLocally)
    case Expire(k) => SetPhase(c, k, Expired)
    case Withdraw(k, callerAlive) =>
      SetPhase(c, k, if c.attempts[k].number < MAX_ATTEMPTS && callerAlive then Retrying else GaveUp)
      .(pending := c.pending - {IdOf(c.plugin, k)})
    case Retry(k) => Begin(SetPhase(c, k, Superseded), c.attempts[k].call, c.attempts[k].number + 1)
    case Receive(k) =>
      var a := c.attempts[k];
      c.(attempts := c.attempts[k := a.(phase := Answered(a.channel[0]), channel := a.channel[1..])])
    case Claim(r, reply) =>
      if reply.id in c.pending then
        c.(readers := c.readers[r := Holding(c.pending[reply.id], reply)], pending := c.pending - {reply.id})
      else c
    case Deliver(r) =>
      var k, reply := c.readers[r].attempt, c.readers[r].reply;
      var a := c.attempts[k];
      c.(readers := c.readers[r := Idle],
         attempts := c.attempts[k := a.(channel := a.channel + [reply], sent := a.sent + 1)])
    case Switch(running) => c.(running := running)
    case StartReader => c.(readers := c.readers + [Idle])
  }

  predicate CanRun(c: Client, labels: seq<Label>)
    decreases labels
  {
    labels == [] || (Enabled(c, labels[0]) && CanRun(Apply(c, labels[0]), labels[1..]))
  }

  function Run(c: Client, labels: seq<Label>): Client
    requires CanRun(c, labels)
    decreases labels
  {
    if labels == [] then c else Run(Apply(c, labels[0]), labels[1..])
  }

  function NewClient(plugin: string): Client {
    Client(plugin, false, [], map[], [], 0)
  }

  // ---- The invariant ----

  function HeldBy(k: nat): Reader -> nat {
    (r: Reader) => if r.Holding? && r.attempt == k then 1 else 0
  }

  function Pends(c: Client, k: nat): nat {
    if IdOf(c.plugin, k) in c.pending then 1 else 0
  }

  /** Everyone who may still send, or has sent, on the attempt's channel. */
  function Shares(c: Client, k: nat): nat
    requires k < |c.attempts|
  {
    Pends(c, k) + Total(HeldBy(k), c.readers) + c.attempts[k].sent
  }

  predicate MayPend(p: Phase) {
    p == Registered || p == Waiting || p == Expired || p == FailedLocally
  }

  ghost predicate PendingOk(c: Client) {
    forall id :: id in c.pending ==> c.pending[id] < |c.attempts| && id == IdOf(c.plugin, c.pending[id])
  }

  ghost predicate ReaderOk(c: Client, r: Reader) {
    r.Holding? ==> r.attempt < |c.attempts| && r.reply.id == IdOf(c.plugin, r.attempt)
  }

  ghost predicate AttemptOk(c: Client, k: nat)
    requires k < |c.attempts|
  {
    var a := c.attempts[k];
    && 1 <= a.number <= MAX_ATTEMPTS && (a.phase == Retrying ==> a.number < MAX_ATTEMPTS) && a.call < c.calls
    && |a.channel| + (if a.phase.Answered? then 1 else 0) == a.sent
    && (forall i :: 0 <= i < |a.channel| ==> a.channel[i].id == IdOf(c.plugin, k))
    && (a.phase.Answered? ==> a.phase.reply.id == IdOf(c.plugin, k))
    && (IdOf(c.plugin, k) in c.pending ==> MayPend(a.phase))
  }

  /** Within a call, numbers go up and every attempt but the last has been superseded. */
  ghost predicate OrderOk(c: Client) {
    forall j, k :: 0 <= j < k < |c.attempts| && c.attempts[j].call == c.attempts[k].call ==>
      c.attempts[j].number < c.attempts[k].number && c.attempts[j].phase == Superseded
  }

  ghost predicate Inv(c: Client) {
    && |c.attempts| < TWO64
    && PendingOk(c) && OrderOk(c)
    && (forall r :: r in c.readers ==> ReaderOk(c, r))
    && (forall k :: 0 <= k < |c.attempts| ==> AttemptOk(c, k) && Shares(c, k) <= 1)
  }

  /** No two attempts of a process ever carry the same id. */
  lemma IdsDistinct(plugin: string, j: nat, k: nat)
    requires j < k < TWO64
    ensures IdOf(plugin, j) != IdOf(plugin, k)
  {
    TagFresh(plugin, j + 1, plugin, k + 1);
  }

  lemma IdsApart(c: Client)
    requires |c.attempts| < TWO64
    ensures forall j, k :: 0 <= j < |c.attempts| && 0 <= k <= |c.attempts| && j != k ==>
        IdOf(c.plugin, j) != IdOf(c.plugin, k)
  {
    forall j, k | 0 <= j < |c.attempts| && 0 <= k <= |c.attempts| && j != k
      ensures IdOf(c.plugin, j) != IdOf(c.plugin, k)
    {
      if j < k { IdsDistinct(c.plugin, j, k); } else { IdsDistinct(c.plugin, k, j); }
    }
  }

  lemma {:induction false} HeldNone(readers: seq<Reader>, k: nat)
    requires forall r :: r in readers && r.Holding? ==> r.attempt != k
    ensures Total(HeldBy(k), readers) == 0
  {
    if readers != [] { HeldNone(readers[1..], k); }
  }

  lemma HeldUpdate(readers: seq<Reader>, i: nat, r: Reader, k: nat)
    requires i < |readers|
    ensures Total(HeldBy(k), readers[i := r]) + HeldBy(k)(readers[i]) == Total(HeldBy(k), readers) + HeldBy(k)(r)
  {
    TotalReplace(HeldBy(k), readers, i, [r]);
    assert readers[i := r] == readers[..i] + [r] + readers[i + 1..];
    assert [r][1..] == [];
  }

  /** A reader that holds a channel finds it empty: its send never blocks. */
  lemma HolderFindsRoom(c: Client, r: nat)
    requires Inv(c) && r < |c.readers| && c.readers[r].Holding?
    ensures c.readers[r].attempt < |c.attempts|
    ensures c.attempts[c.readers[r].attempt].channel == [] && c.attempts[c.readers[r].attempt].sent == 0
    ensures IdOf(c.plugin, c.readers[r].attempt) !in c.pending
  {
    var k := c.readers[r].attempt;
    assert c.readers[r] in c.readers;
    assert Shares(c, k) <= 1 && AttemptOk(c, k);
    HeldUpdate(c.readers, r, Idle, k);
  }

  // ---- One step keeps it ----

  lemma BeginKeeps(c: Client, call: nat, number: nat)
    requires Inv(c) && |c.attempts| < TWO64 - 1 && 1 <= number <= MAX_ATTEMPTS && call < c.calls
    requires forall j :: 0 <= j < |c.attempts| && c.attempts[j].call == call ==>
               c.attempts[j].number < number && c.attempts[j].phase == Superseded
    ensures Inv(Begin(c, call, number))
  {
    var d, n := Begin(c, call, number), |c.attempts|;
    if c.running {
      IdsApart(c);
      IdsApart(d);
      assert IdOf(c.plugin, n) !in c.pending;
      forall k | 0 <= k < |d.attempts| ensures AttemptOk(d, k) && Shares(d, k) <= 1 {
        if k < n {
          assert d.attempts[k] == c.attempts[k];
          assert AttemptOk(c, k) && Shares(c, k) <= 1;
        } else {
          forall r | r in d.readers && r.Holding? ensures r.attempt != n { assert ReaderOk(c, r); }
          HeldNone(d.readers, n);
        }
      }
      forall r | r in d.readers ensures ReaderOk(d, r) { assert ReaderOk(c, r); }
    }
  }

  /** Changing one attempt to a phase that needs no more than the old one did. */
  lemma SetPhaseKeeps(c: Client, k: nat, p: Phase)
    requires Inv(c) && k < |c.attempts| && !p.Answered? && !c.attempts[k].phase.Answered?
    requires c.attempts[k].phase != Superseded
    requires MayPend(p) || IdOf(c.plugin, k) !in c.pending
    requires p == Retrying ==> c.attempts[k].number < MAX_ATTEMPTS
    ensures Inv(SetPhase(c, k, p))
  {
    var d := SetPhase(c, k, p);
    forall j | 0 <= j < |d.attempts| ensures AttemptOk(d, j) && Shares(d, j) <= 1 {
      assert AttemptOk(c, j) && Shares(c, j) <= 1;
    }
    forall r | r in d.readers ensures ReaderOk(d, r) { assert ReaderOk(c, r); }
  }

  /** Withdrawing an entry only lowers shares. */
  lemma DropKeeps(c: Client, id: string)
    requires Inv(c)
    ensures Inv(c.(pending := c.pending - {id}))
  {
    var d := c.(pending := c.pending - {id});
    forall j | 0 <= j < |d.attempts| ensures AttemptOk(d, j) && Shares(d, j) <= 1 {
      assert AttemptOk(c, j) && Shares(c, j) <= 1;
    }
    forall r | r in d.readers ensures ReaderOk(d, r) { assert ReaderOk(c, r); }
  }

  lemma ReceiveKeeps(c: Client, k: nat)
    requires Inv(c) && Enabled(c, Receive(k))
    ensures Inv(Apply(c, Receive(k)))
  {
    var d := Apply(c, Receive(k));
    assert AttemptOk(c, k) && Shares(c, k) <= 1;
    forall j | 0 <= j < |d.attempts| ensures AttemptOk(d, j) && Shares(d, j) <= 1 {
      assert AttemptOk(c, j) && Shares(c, j) <= 1;
    }
    forall r | r in d.readers ensures ReaderOk(d, r) { assert ReaderOk(c, r); }
  }

  lemma ClaimKeeps(c: Client, i: nat, reply: Reply)
    requires Inv(c) && Enabled(c, Claim(i, reply))
    ensures Inv(Apply(c, Claim(i, reply)))
  {
    var d := Apply(c, Claim(i, reply));
    if reply.id in c.pending {
      var k := c.pending[reply.id];
      var r := Holding(k, reply);
      IdsApart(c);
      forall j | 0 <= j < |d.attempts| ensures AttemptOk(d, j) && Shares(d, j) <= 1 {
        assert AttemptOk(c, j) && Shares(c, j) <= 1;
        HeldUpdate(c.readers, i, r, j);
      }
      forall x | x in d.readers ensures ReaderOk(d, x) {
        if x != r { assert x in c.readers && ReaderOk(c, x); }
      }
    }
  }

  lemma DeliverKeeps(c: Client, i: nat)
    requires Inv(c) && Enabled(c, Deliver(i))
    ensures Inv(Apply(c, Deliver(i)))
  {
    var d := Apply(c, Deliver(i));
    var k := c.readers[i].attempt;
    HolderFindsRoom(c, i);
    assert c.readers[i] in c.readers && ReaderOk(c, c.readers[i]);
    forall j | 0 <= j < |d.attempts| ensures AttemptOk(d, j) && Shares(d, j) <= 1 {
      assert AttemptOk(c, j) && Shares(c, j) <= 1;
      HeldUpdate(c.readers, i, Idle, j);
    }
    forall x | x in d.readers ensures ReaderOk(d, x) {
      if x != Idle { assert x in c.readers && ReaderOk(c, x); }
    }
  }

  lemma StartReaderKeeps(c: Client)
    requires Inv(c)
    ensures Inv(c.(readers := c.readers + [Idle]))
  {
    var d := c.(readers := c.readers + [Idle]);
    forall j | 0 <= j < |d.attempts| ensures AttemptOk(d, j) && Shares(d, j) <= 1 {
      assert AttemptOk(c, j) && Shares(c, j) <= 1;
      TotalPush(HeldBy(j), c.readers, Idle);
    }
    forall x | x in d.readers ensures ReaderOk(d, x) {
      if x != Idle { assert x in c.readers && ReaderOk(c, x); }
    }
  }

  lemma CallsGrow(c: Client)
    requires Inv(c)
    ensures Inv(c.(calls := c.calls + 1))
  {
    var d := c.(calls := c.calls + 1);
    forall j | 0 <= j < |d.attempts| ensures AttemptOk(d, j) && Shares(d, j) <= 1 {
      assert AttemptOk(c, j) && Shares(c, j) <= 1;
    }
    forall r | r in d.readers ensures ReaderOk(d, r) { assert ReaderOk(c, r); }
  }

  lemma RetryKeeps(c: Client, k: nat)
    requires Inv(c) && Enabled(c, Retry(k))
    ensures Inv(Apply(c, Retry(k)))
  {
    assert AttemptOk(c, k);
    SetPhaseKeeps(c, k, Superseded);
    var d := SetPhase(c, k, Superseded);
    forall j | 0 <= j < |d.attempts| && d.attempts[j].call == c.attempts[k].call
      ensures d.attempts[j].number < c.attempts[k].number + 1 && d.attempts[j].phase == Superseded
    {
    }
    BeginKeeps(d, c.attempts[k].call, c.attempts[k].number + 1);
  }

  lemma CallKeeps(c: Client)
    requires Inv(c) && Enabled(c, Call)
    ensures Inv(Apply(c, Call))
  {
    CallsGrow(c);
    var d := c.(calls := c.calls + 1);
    forall j | 0 <= j < |d.attempts| ensures d.attempts[j].call != c.calls { assert AttemptOk(c, j); }
    BeginKeeps(d, c.calls, 1);
  }

  lemma SwitchKeeps(c: Client, running: bool)
    requires Inv(c)
    ensures Inv(c.(running := running))
  {
    var d := c.(running := running);
    forall j | 0 <= j < |d.attempts| ensures AttemptOk(d, j) && Shares(d, j) <= 1 {
      assert AttemptOk(c, j) && Shares(c, j) <= 1;
    }
    forall r | r in d.readers ensures ReaderOk(d, r) { assert ReaderOk(c, r); }
  }

  lemma StepKeeps(c: Client, l: Label)
    requires Inv(c) && Enabled(c, l)
    ensures Inv(Apply(c, l))
  {
    hide Inv, Begin;
    match l {
      case Call => CallKeeps(c);
      case Written(k) => SetPhaseKeeps(c, k, Waiting);
      case FailLocally(k) => SetPhaseKeeps(c, k, FailedLocally);
      case Expire(k) => SetPhaseKeeps(c, k, Expired);
      case Withdraw(k, callerAlive) =>
        DropKeeps(c, IdOf(c.plugin, k));
        SetPhaseKeeps(c.(pending := c.pending - {IdOf(c.plugin, k)}), k,
                      if c.attempts[k].number < MAX_ATTEMPTS && callerAlive then Retrying else GaveUp);
      case Retry(k) => RetryKeeps(c, k);
      case Receive(k) => ReceiveKeeps(c, k);
      case Claim(r, reply) => ClaimKeeps(c, r, reply);
      case Deliver(r) => DeliverKeeps(c, r);
      case Switch(running) => SwitchKeeps(c, running);
      case StartReader => StartReaderKeeps(c);
    }
  }

  lemma {:induction false} RunKeeps(c: Client, labels: seq<Label>)
    requires Inv(c) && CanRun(c, labels)
    ensures Inv(Run(c, labels))
    decreases labels
  {
    if labels != [] {
      StepKeeps(c, labels[0]);
      RunKeeps(Apply(c, labels[0]), labels[1..]);
    }
  }

  // ---- What a run promises ----

  /** In every interleaving, the response a call consumes carries the id of that very attempt. */
  lemma ResponsesMatch(plugin: string, labels: seq<Label>, k: nat)
    requires CanRun(NewClient(plugin), labels)
    requires k < |Run(NewClient(plugin), labels).attempts| && Run(NewClient(plugin), labels).attempts[k].phase.Answered?
    ensures Run(NewClient(plugin), labels).attempts[k].phase.reply.id == IdOf(plugin, k)
    ensures forall j :: 0 <= j < TWO64 - 1 && j != k ==>
        Run(NewClient(plugin), labels).attempts[k].phase.reply.id != IdOf(plugin, j)
  {
    RunKeeps(NewClient(plugin), labels);
    var c := Run(NewClient(plugin), labels);
    SamePlugin(NewClient(plugin), labels);
    assert AttemptOk(c, k);
    forall j | 0 <= j < TWO64 - 1 && j != k ensures IdOf(plugin, k) != IdOf(plugin, j) {
      if j < k { IdsDistinct(plugin, j, k); } else { IdsDistinct(plugin, k, j); }
    }
  }

  lemma {:induction false} SamePlugin(c: Client, labels: seq<Label>)
    requires CanRun(c, labels)
    ensures Run(c, labels).plugin == c.plugin
    decreases labels
  {
    if labels != [] { SamePlugin(Apply(c, labels[0]), labels[1..]); }
  }

  /** In every interleaving, an attempt's entry, the reader holding its channel and the sends the
      channel saw are at most one together; so a send never finds the channel full. */
  lemma ChannelsAreLinear(plugin: string, labels: seq<Label>, k: nat)
    requires CanRun(NewClient(plugin), labels) && k < |Run(NewClient(plugin), labels).attempts|
    ensures var c := Run(NewClient(plugin), labels);
            && Shares(c, k) <= 1
            && forall r :: 0 <= r < |c.readers| && c.readers[r].Holding? ==> Enabled(c, Deliver(r))
  {
    RunKeeps(NewClient(plugin), labels);
    var c := Run(NewClient(plugin), labels);
    forall r | 0 <= r < |c.readers| && c.readers[r].Holding? ensures Enabled(c, Deliver(r)) {
      HolderFindsRoom(c, r);
    }
  }

  predicate Finished(p: Phase) {
    p == Superseded || p == GaveUp || p == FailedLocally || p.Answered?
  }

  /** A finished attempt leaves an entry behind only if it failed locally. */
  lemma OnlyLocalFailuresLeak(plugin: string, labels: seq<Label>, k: nat)
    requires CanRun(NewClient(plugin), labels) && k < |Run(NewClient(plugin), labels).attempts|
    ensures var c := Run(NewClient(plugin), labels);
            IdOf(plugin, k) in c.pending && Finished(c.attempts[k].phase) ==> c.attempts[k].phase == FailedLocally
  {
    RunKeeps(NewClient(plugin), labels);
    SamePlugin(NewClient(plugin), labels);
    assert AttemptOk(Run(NewClient(plugin), labels), k);
  }

  // ---- Exactly which entries stay ----

  /** No reply with this id is claimed in the course of these steps. */
  ghost predicate NeverSent(labels: seq<Label>, id: string) {
    forall i :: 0 <= i < |labels| && labels[i].Claim? ==> labels[i].reply.id != id
  }

  /** An attempt that no longer needs its entry never needs it again. */
  lemma {:induction false} PhasesEnd(c: Client, labels: seq<Label>, k: nat)
    requires CanRun(c, labels) && k < |c.attempts| && !MayPend(c.attempts[k].phase)
    ensures k < |Run(c, labels).attempts| && !MayPend(Run(c, labels).attempts[k].phase)
    decreases labels
  {
    if labels != [] { PhasesEnd(Apply(c, labels[0]), labels[1..], k); }
  }

  lemma StepPending(c: Client, k: nat, l: Label)
    requires Inv(c) && Enabled(c, l) && k < |c.attempts|
    ensures k < |Apply(c, l).attempts|
    ensures IdOf(c.plugin, k) in Apply(c, l).pending <==>
              && IdOf(c.plugin, k) in c.pending
              && MayPend(Apply(c, l).attempts[k].phase)
              && !(l.Claim? && l.reply.id == IdOf(c.plugin, k))
  {
    IdsApart(c);
    assert AttemptOk(c, k) && Shares(c, k) <= 1;
    if l.Receive? && l.k == k { assert IdOf(c.plugin, k) !in c.pending; }
  }

  /** Over every run, an entry is still there exactly if it was there, its attempt has not reached a
      phase that withdraws it, and no reply with its id has come. */
  lemma {:induction false} PendingExactly(c: Client, labels: seq<Label>, k: nat)
    requires Inv(c) && CanRun(c, labels) && k < |c.attempts|
    ensures k < |Run(c, labels).attempts|
    ensures IdOf(c.plugin, k) in Run(c, labels).pending <==>
              && IdOf(c.plugin, k) in c.pending
              && MayPend(Run(c, labels).attempts[k].phase)
              && NeverSent(labels, IdOf(c.plugin, k))
    decreases labels
  {
    if labels == [] {
      assert AttemptOk(c, k);
    } else {
      var d, rest, id := Apply(c, labels[0]), labels[1..], IdOf(c.plugin, k);
      StepKeeps(c, labels[0]);
      StepPending(c, k, labels[0]);
      PendingExactly(d, rest, k);
      assert d.plugin == c.plugin;
      assert NeverSent(labels, id) <==> !(labels[0].Claim? && labels[0].reply.id == id) && NeverSent(rest, id);
      if !MayPend(d.attempts[k].phase) { PhasesEnd(d, rest, k); }
    }
  }

  /** From its registration on, whatever happens, a finished attempt still has its entry if and only
      if it failed locally and no reply with its id has come since. */
  lemma LeaksExactly(c: Client, labels: seq<Label>, k: nat)
    requires Inv(c) && CanRun(c, labels) && InPhase(c, k, Registered) && IdOf(c.plugin, k) in c.pending
    ensures k < |Run(c, labels).attempts|
    ensures var z, id := Run(c, labels), IdOf(c.plugin, k);
            id in z.pending && Finished(z.attempts[k].phase) <==>
              z.attempts[k].phase == FailedLocally && NeverSent(labels, id)
  {
    PendingExactly(c, labels, k);
  }

  /** It does happen: a process is started, a call fails to write, and its entry stays. */
  lemma ALeak(plugin: string)
    ensures var labels := [Switch(true), Call, FailLocally(0)];
            && CanRun(NewClient(plugin), labels)
            && var z := Run(NewClient(plugin), labels);
               && |z.attempts| == 1 && Finished(z.attempts[0].phase) && IdOf(plugin, 0) in z.pending
  {
    var labels := [Switch(true), Call, FailLocally(0)];
    var c1 := Apply(NewClient(plugin), Switch(true));
    var c2 := Apply(c1, Call);
    var c3 := Apply(c2, FailLocally(0));
    assert labels[1..] == [Call, FailLocally(0)] && labels[1..][1..] == [FailLocally(0)] && labels[1..][1..][1..] == [];
    assert CanRun(c3, []) && Run(c3, []) == c3;
    assert CanRun(c2, [FailLocally(0)]) && Run(c2, [FailLocally(0)]) == c3;
    assert CanRun(c1, labels[1..]) && Run(c1, labels[1..]) == c3;
  }

  ghost function AttemptsOf(c: Client, call: nat): set<nat> {
    set k | 0 <= k < |c.attempts| && c.attempts[k].call == call
  }

  /** No call makes more than three attempts. */
  lemma ThreeAttempts(plugin: string, labels: seq<Label>, call: nat)
    requires CanRun(NewClient(plugin), labels)
    ensures |AttemptsOf(Run(NewClient(plugin), labels), call)| <= MAX_ATTEMPTS
  {
    RunKeeps(NewClient(plugin), labels);
    var c := Run(NewClient(plugin), labels);
    var ks := AttemptsOf(c, call);
    var one, two, three := Numbered(c, call, 1), Numbered(c, call, 2), Numbered(c, call, 3);
    forall k | k in ks ensures k in one + two + three { assert AttemptOk(c, k); }
    assert ks <= one + two + three;
    NumberedOnce(c, call, 1);
    NumberedOnce(c, call, 2);
    NumberedOnce(c, call, 3);
    SubsetSize(ks, one + two + three);
  }

  ghost function Numbered(c: Client, call: nat, number: nat): set<nat> {
    set k | k in AttemptsOf(c, call) && c.attempts[k].number == number
  }

  lemma NumberedOnce(c: Client, call: nat, number: nat)
    requires Inv(c)
    ensures |Numbered(c, call, number)| <= 1
  {
    var s := Numbered(c, call, number);
    if s != {} {
      var k :| k in s;
      assert s == {k};
    }
  }
}
