/** The queue subscriber as a transition system: each stretch of code between two awaits is one step. */
module Subscriber {
  import opened Prelude
  import Text

  datatype Config = Config(batchSize: nat, maxInFlight: nat)

  /** The bounds the configuration schema enforces. */
  predicate ValidConfig(c: Config) {
    1 <= c.batchSize <= 10 && 1 <= c.maxInFlight
  }

  datatype Message = Message(receiptHandle: Option<string>)

  datatype DeleteEntry = DeleteEntry(id: string, receiptHandle: string)

  /** Where the promise of one received batch stands: tasks running, delete request out, settled but not yet
      untracked. */
  datatype Phase = Working | Deleting | Finishing

  datatype Batch = Batch(messages: seq<Message>, results: seq<Option<bool>>, phase: Phase)

  /** Where the polling loop is suspended; a receive that is out may have been aborted. */
  datatype Loop = Idle | Top | Receiving(reserved: nat, aborted: bool) | Blocked

  /** Where `stop` is suspended; the awaited sets are those of the moment the wait began. */
  datatype Stopper = NoStop | AwaitLoop | AwaitBatches(batches: set<nat>) | AwaitTasks(tasks: set<(nat, nat)>)

  /** `batches` are pending, `done` is the record of those that were untracked, `deletes` the delete requests made. */
  datatype State = State(
    hasLoop: bool,
    loop: Loop,
    stopping: bool,
    waiters: nat,
    inFlight: set<(nat, nat)>,
    batches: map<nat, Batch>,
    next: nat,
    stopper: Stopper,
    done: map<nat, Batch>,
    deletes: seq<(nat, seq<DeleteEntry>)>
  )

  const INITIAL := State(false, Idle, false, 0, {}, map[], 0, NoStop, map[], [])

  datatype Event =
    | Start
    | Stop
    | Iterate
    | Received(messages: seq<Message>)
    | ReceiveFails
    | TaskDone(b: nat, k: nat, ok: bool)
    | Collect(b: nat)
    | DeleteDone(b: nat)
    | BatchDone(b: nat)
    | LoopAwaited
    | BatchesAwaited
    | TasksAwaited

  // ---------------------------------------------------------------- steps

  predicate AllIn(results: seq<Option<bool>>) {
    forall k :: 0 <= k < |results| ==> results[k].Some?
  }

  /** The messages whose task succeeded, in the order of the batch. */
  function Successes(messages: seq<Message>, results: seq<Option<bool>>): (r: seq<Message>)
    requires |messages| == |results|
    ensures |r| <= |messages|
  {
    if messages == [] then []
    else
      var n := |messages| - 1;
      Successes(messages[..n], results[..n]) + if results[n] == Some(true) then [messages[n]] else []
  }

  function DeleteEntries(messages: seq<Message>): (r: seq<DeleteEntry>)
    ensures |r| == |messages|
  {
    seq(|messages|, i requires 0 <= i < |messages| =>
      DeleteEntry(Text.Decimal(i), if messages[i].receiptHandle.Some? then messages[i].receiptHandle.value else ""))
  }

  function Min(a: int, b: int): int { if a <= b then a else b }

  function Available(c: Config, s: State): int { c.maxInFlight - |s.inFlight| }

  function Tasks(b: nat, n: nat): set<(nat, nat)> {
    set k: nat | 0 <= k < n :: (b, k)
  }

  function Aborted(l: Loop): Loop { if l.Receiving? then l.(aborted := true) else l }

  /** Everybody waiting for capacity is woken; a blocked loop goes on only if it is among them. */
  function Released(s: State): State {
    s.(waiters := 0, loop := if s.loop.Blocked? && s.waiters > 0 then Top else s.loop)
  }

  /** One turn of the loop, up to its next await. */
  function Turn(c: Config, s: State): State {
    if s.stopping then s.(loop := Idle)
    else if Available(c, s) <= 0 then
      if s.stopping || |s.inFlight| < c.maxInFlight then s.(loop := Top)
      else s.(loop := Blocked, waiters := s.waiters + 1)
    else s.(loop := Receiving(Min(Min(c.batchSize, Available(c, s)), 10), false))
  }

  /** When a step can happen. A receive answers with at most as many messages as were asked for; `start` and a second
      `stop` are not called while a `stop` is pending. */
  predicate Enabled(s: State, e: Event) {
    match e
    case Start => s.stopper.NoStop? && !s.hasLoop
    case Stop => s.stopper.NoStop?
    case Iterate => s.loop.Top?
    case Received(ms) => s.loop.Receiving? && |ms| <= s.loop.reserved
    case ReceiveFails => s.loop.Receiving?
    case TaskDone(b, k, _) => (b, k) in s.inFlight && b in s.batches && k < |s.batches[b].results|
    case Collect(b) =>
      b in s.batches && s.batches[b].phase.Working? && AllIn(s.batches[b].results)
      && |s.batches[b].messages| == |s.batches[b].results|
    case DeleteDone(b) => b in s.batches && s.batches[b].phase.Deleting?
    case BatchDone(b) => b in s.batches && s.batches[b].phase.Finishing?
    case LoopAwaited => s.stopper.AwaitLoop? && s.loop.Idle?
    case BatchesAwaited => s.stopper.AwaitBatches? && s.stopper.batches !! s.batches.Keys
    case TasksAwaited => s.stopper.AwaitTasks? && s.stopper.tasks !! s.inFlight
  }

  function Apply(c: Config, s: State, e: Event): State
    requires Enabled(s, e)
  {
    match e
    case Start => Turn(c, s.(stopping := false, hasLoop := true))
    case Stop =>
      var r := Released(s.(stopping := true, loop := Aborted(s.loop)));
      r.(stopper := if s.hasLoop then AwaitLoop else AwaitBatches(s.batches.Keys))
    case Iterate => Turn(c, s)
    case Received(ms) =>
      if ms == [] then s.(loop := Top)
      else s.(loop := Top, next := s.next + 1, inFlight := s.inFlight + Tasks(s.next, |ms|),
              batches := s.batches[s.next := Batch(ms, seq(|ms|, _ => None), Working)])
    case ReceiveFails => s.(loop := Top)
    case TaskDone(b, k, ok) =>
      Released(s.(inFlight := s.inFlight - {(b, k)},
                  batches := s.batches[b := s.batches[b].(results := s.batches[b].results[k := Some(ok)])]))
    case Collect(b) =>
      var batch := s.batches[b];
      var successes := Successes(batch.messages, batch.results);
      if successes == [] then s.(batches := s.batches[b := batch.(phase := Finishing)])
      else s.(batches := s.batches[b := batch.(phase := Deleting)],
              deletes := s.deletes + [(b, DeleteEntries(successes))])
    case DeleteDone(b) => s.(batches := s.batches[b := s.batches[b].(phase := Finishing)])
    case BatchDone(b) => Released(s.(batches := s.batches - {b}, done := s.done[b := s.batches[b]]))
    case LoopAwaited => s.(hasLoop := false, stopper := AwaitBatches(s.batches.Keys))
    case BatchesAwaited => s.(stopper := AwaitTasks(s.inFlight))
    case TasksAwaited => s.(stopper := NoStop)
  }

  /** A step of the system; an event that cannot happen changes nothing. */
  function Step(c: Config, s: State, e: Event): State {
    if Enabled(s, e) then Apply(c, s, e) else s
  }

  function Run(c: Config, trace: seq<Event>): State {
    if trace == [] then INITIAL else Step(c, Run(c, trace[..|trace| - 1]), trace[|trace| - 1])
  }

  // ---------------------------------------------------------------- capacity and waiters

  function Reserved(s: State): nat { if s.loop.Receiving? then s.loop.reserved else 0 }

  /** What is in flight and what an outstanding receive may add stay within the limit; the loop is blocked exactly while
      its one waiter is registered, and then only because the limit is reached and nobody has asked to stop. */
  ghost predicate CapacityInv(c: Config, s: State) {
    && |s.inFlight| + Reserved(s) <= c.maxInFlight
    && (s.loop.Receiving? ==> 1 <= s.loop.reserved <= 10)
    && s.waiters == (if s.loop.Blocked? then 1 else 0)
    && (s.loop.Blocked? ==> !s.stopping && |s.inFlight| == c.maxInFlight)
  }

  /** The life of the loop against that of `stop`. */
  ghost predicate StopInv(s: State) {
    && (!s.hasLoop ==> s.loop.Idle?)
    && (s.hasLoop && s.loop.Idle? ==> s.stopper.AwaitLoop?)
    && (s.hasLoop && s.stopper.NoStop? ==> !s.stopping)
    && (s.loop.Receiving? ==> (s.loop.aborted <==> s.stopping))
    && (s.stopper.AwaitLoop? ==> s.hasLoop && s.stopping)
    && (s.stopper.AwaitBatches? ==> !s.hasLoop && s.batches.Keys <= s.stopper.batches)
    && (s.stopper.AwaitTasks? ==> !s.hasLoop && s.batches == map[])
  }

  /** The tasks in flight are the results still missing in the pending batches. */
  ghost predicate TaskInv(s: State) {
    && (forall x :: x in s.inFlight <==>
          x.0 in s.batches && x.1 < |s.batches[x.0].results| && s.batches[x.0].results[x.1].None?)
    && (forall b :: b in s.batches ==> WellFormed(s.batches[b]))
  }

  ghost predicate WellFormed(batch: Batch) {
    1 <= |batch.messages| == |batch.results| <= 10 && (!batch.phase.Working? ==> AllIn(batch.results))
  }

  lemma NothingInFlight(s: State)
    requires TaskInv(s) && s.batches == map[]
    ensures s.inFlight == {}
  {
    assert forall x :: x in s.inFlight ==> x.0 in s.batches;
  }

  lemma TasksSize(b: nat, n: nat)
    ensures |Tasks(b, n)| == n
  {
    if n > 0 {
      TasksSize(b, n - 1);
      assert Tasks(b, n) == Tasks(b, n - 1) + {(b, n - 1)};
    }
  }

  /** Every batch ever received is pending or done, never both. */
  ghost predicate RecordInv(s: State) {
    && (forall b :: b in s.batches || b in s.done <==> 0 <= b < s.next)
    && s.batches.Keys !! s.done.Keys
    && forall b :: b in s.done ==> WellFormed(s.done[b]) && s.done[b].phase.Finishing?
  }

  ghost predicate Inv(c: Config, s: State) {
    CapacityInv(c, s) && StopInv(s) && TaskInv(s) && RecordInv(s)
  }

  lemma CapacityTurn(c: Config, s: State)
    requires ValidConfig(c) && |s.inFlight| <= c.maxInFlight && s.waiters == 0
    ensures CapacityInv(c, Turn(c, s))
  {
  }

  /** The batch that arrives takes at most the capacity reserved for it. */
  lemma CapacityReceived(c: Config, s: State, e: Event)
    requires CapacityInv(c, s) && Enabled(s, e) && e.Received?
    ensures CapacityInv(c, Apply(c, s, e))
  {
    TasksSize(s.next, |e.messages|);
    assert |s.inFlight + Tasks(s.next, |e.messages|)| <= |s.inFlight| + |Tasks(s.next, |e.messages|)|;
  }

  lemma CapacityStep(c: Config, s: State, e: Event)
    requires ValidConfig(c) && Inv(c, s) && Enabled(s, e)
    ensures CapacityInv(c, Apply(c, s, e))
  {
    hide TaskInv, RecordInv, Successes, DeleteEntries, Turn;
    match e
    case Start => CapacityTurn(c, s.(stopping := false, hasLoop := true));
    case Iterate => CapacityTurn(c, s);
    case Received(_) => CapacityReceived(c, s, e);
    case _ =>
  }

  lemma StopStep(c: Config, s: State, e: Event)
    requires ValidConfig(c) && Inv(c, s) && Enabled(s, e)
    ensures StopInv(Apply(c, s, e))
  {
    hide RecordInv, Successes, DeleteEntries, Tasks;
  }

  /** The steps that change what is received, running or recorded. */
  predicate Touches(e: Event) {
    e.Received? || e.TaskDone? || e.Collect? || e.DeleteDone? || e.BatchDone?
  }

  lemma OthersLeaveBatches(c: Config, s: State, e: Event)
    requires Enabled(s, e) && !Touches(e)
    ensures var s' := Apply(c, s, e);
            && s'.batches == s.batches && s'.inFlight == s.inFlight && s'.done == s.done && s'.next == s.next
            && s'.deletes == s.deletes
  {}

  lemma TaskInvReceived(s: State, s': State, ms: seq<Message>)
    requires TaskInv(s) && s.next !in s.batches && 1 <= |ms| <= 10
    requires s'.inFlight == s.inFlight + Tasks(s.next, |ms|)
    requires s'.batches == s.batches[s.next := Batch(ms, seq(|ms|, _ => None), Working)]
    ensures TaskInv(s')
  {
    assert forall x :: x in Tasks(s.next, |ms|) <==> x.0 == s.next && x.1 < |ms|;
  }

  lemma TaskInvResult(s: State, s': State, b: nat, k: nat, ok: bool)
    requires TaskInv(s) && (b, k) in s.inFlight
    requires s'.inFlight == s.inFlight - {(b, k)}
    requires s'.batches == s.batches[b := s.batches[b].(results := s.batches[b].results[k := Some(ok)])]
    ensures TaskInv(s')
  {}

  lemma TaskInvPhase(s: State, s': State, b: nat, phase: Phase)
    requires TaskInv(s) && b in s.batches && AllIn(s.batches[b].results)
    requires s'.inFlight == s.inFlight && s'.batches == s.batches[b := s.batches[b].(phase := phase)]
    ensures TaskInv(s')
  {}

  lemma TaskInvUntracked(s: State, s': State, b: nat)
    requires TaskInv(s) && b in s.batches && AllIn(s.batches[b].results)
    requires s'.inFlight == s.inFlight && s'.batches == s.batches - {b}
    ensures TaskInv(s')
  {}

  lemma TaskStep(c: Config, s: State, e: Event)
    requires TaskInv(s) && s.next !in s.batches && Enabled(s, e) && (e.Received? ==> |e.messages| <= 10)
    ensures TaskInv(Apply(c, s, e))
  {
    var s' := Apply(c, s, e);
    if !Touches(e) {
      OthersLeaveBatches(c, s, e);
    } else if e.Received? {
      if e.messages != [] { TaskInvReceived(s, s', e.messages); }
    } else if e.TaskDone? {
      TaskInvResult(s, s', e.b, e.k, e.ok);
    } else if e.BatchDone? {
      TaskInvUntracked(s, s', e.b);
    } else {
      TaskInvPhase(s, s', e.b, s'.batches[e.b].phase);
    }
  }

  lemma RecordReceived(s: State, s': State, batch: Batch)
    requires RecordInv(s) && s'.next == s.next + 1 && s'.done == s.done && s'.batches == s.batches[s.next := batch]
    ensures RecordInv(s')
  {}

  lemma RecordUpdate(s: State, s': State, b: nat, batch: Batch)
    requires RecordInv(s) && b in s.batches && s'.next == s.next && s'.done == s.done
        && s'.batches == s.batches[b := batch]
    ensures RecordInv(s')
  {}

  lemma RecordUntracked(s: State, s': State, b: nat)
    requires RecordInv(s) && b in s.batches && WellFormed(s.batches[b]) && s.batches[b].phase.Finishing?
    requires s'.next == s.next && s'.done == s.done[b := s.batches[b]] && s'.batches == s.batches - {b}
    ensures RecordInv(s')
  {}

  lemma RecordStep(c: Config, s: State, e: Event)
    requires TaskInv(s) && RecordInv(s) && Enabled(s, e)
    ensures RecordInv(Apply(c, s, e))
  {
    var s' := Apply(c, s, e);
    if !Touches(e) {
      OthersLeaveBatches(c, s, e);
    } else if e.Received? {
      if e.messages != [] { RecordReceived(s, s', s'.batches[s.next]); }
    } else if e.BatchDone? {
      RecordUntracked(s, s', e.b);
    } else {
      RecordUpdate(s, s', e.b, s'.batches[e.b]);
    }
  }

  lemma InvStep(c: Config, s: State, e: Event)
    requires ValidConfig(c) && Inv(c, s)
    ensures Inv(c, Step(c, s, e))
  {
    hide CapacityInv, StopInv, TaskInv, Apply, Turn;
    if Enabled(s, e) {
      CapacityStep(c, s, e);
      StopStep(c, s, e);
      TaskPremises(c, s, e);
      TaskStep(c, s, e);
      RecordStep(c, s, e);
    }
  }

  lemma TaskPremises(c: Config, s: State, e: Event)
    requires Inv(c, s) && Enabled(s, e)
    ensures s.next !in s.batches && (e.Received? ==> |e.messages| <= 10)
  {
    assert s.next in s.batches || s.next in s.done <==> s.next < s.next;
  }

  lemma {:induction false} InvRun(c: Config, trace: seq<Event>)
    requires ValidConfig(c)
    ensures Inv(c, Run(c, trace))
  {
    if trace != [] {
      InvRun(c, trace[..|trace| - 1]);
      InvStep(c, Run(c, trace[..|trace| - 1]), trace[|trace| - 1]);
    }
  }

  // ---------------------------------------------------------------- main results

  /** In flight plus reserved never exceeds the limit, although tasks end while a receive is out. */
  lemma Reservation(c: Config, trace: seq<Event>)
    requires ValidConfig(c)
    ensures |Run(c, trace).inFlight| + Reserved(Run(c, trace)) <= c.maxInFlight
  {
    InvRun(c, trace);
  }

  /** A turn of the loop that finds capacity asks for the least of the batch size, the capacity and ten; nothing else
      ever asks. */
  lemma ReceiveSize(c: Config, trace: seq<Event>, e: Event)
    requires ValidConfig(c)
    ensures
      var s, s' := Run(c, trace), Step(c, Run(c, trace), e);
      var turns := Enabled(s, e) && (e.Start? || (e.Iterate? && !s.stopping));
      && (s'.loop.Receiving? && !s.loop.Receiving? <==> turns && |s.inFlight| < c.maxInFlight)
      && (s'.loop.Receiving? && !s.loop.Receiving? ==>
            var n := s'.loop.reserved;
            && n <= c.batchSize && n <= c.maxInFlight - |s.inFlight| && n <= 10
            && (n == c.batchSize || n == c.maxInFlight - |s.inFlight| || n == 10))
  {
    InvRun(c, trace);
    hide TaskInv, RecordInv, Successes, DeleteEntries;
  }

  /** No lost wake-up: a blocked loop has its waiter registered, is not being stopped, and the limit is reached, so some
      task in flight will wake it; the early return of the waiting function is never taken. */
  lemma NoLostWakeup(c: Config, trace: seq<Event>)
    requires ValidConfig(c)
    ensures
      var s := Run(c, trace);
      && (s.loop.Blocked? <==> s.waiters == 1) && s.waiters <= 1
      && (s.loop.Blocked? ==>
            !s.stopping && |s.inFlight| == c.maxInFlight
            && exists b, k, ok :: Enabled(s, TaskDone(b, k, ok)) && Step(c, s, TaskDone(b, k, ok)).loop.Top?)
  {
    InvRun(c, trace);
    var s := Run(c, trace);
    if s.loop.Blocked? {
      var x :| x in s.inFlight;
      assert (x.0, x.1) in s.inFlight;
      assert Enabled(s, TaskDone(x.0, x.1, true)) && Step(c, s, TaskDone(x.0, x.1, true)).loop.Top?;
    }
  }

  /** Everybody waiting for capacity is woken when a task ends, a batch is untracked or a stop is asked for. */
  lemma WaitersWoken(c: Config, trace: seq<Event>, e: Event)
    requires ValidConfig(c) && Enabled(Run(c, trace), e) && (e.TaskDone? || e.BatchDone? || e.Stop?)
    ensures Step(c, Run(c, trace), e).waiters == 0 && !Step(c, Run(c, trace), e).loop.Blocked?
  {
    InvRun(c, trace);
  }

  /** `stop` aborts the receive that is out, and no receive is aborted otherwise; none is issued once a stop is asked
      for. */
  lemma StopAborts(c: Config, trace: seq<Event>, e: Event)
    requires ValidConfig(c)
    ensures
      var s, s' := Run(c, trace), Step(c, Run(c, trace), e);
      && (s.loop.Receiving? ==> (s.loop.aborted <==> s.stopping))
      && (s.stopping && !e.Start? && !s.loop.Receiving? ==> !s'.loop.Receiving?)
  {
    InvRun(c, trace);
  }

  /** The steps the subscriber takes by itself, with the answers it is waiting for. */
  predicate Internal(e: Event) { !e.Start? && !e.Stop? }

  /** Never deadlocked: while the loop lives, a batch is pending or `stop` is waiting, some internal step can happen. */
  lemma NeverDeadlocked(c: Config, trace: seq<Event>)
    requires ValidConfig(c)
    requires Run(c, trace).hasLoop || Run(c, trace).batches != map[] || !Run(c, trace).stopper.NoStop?
    ensures exists e :: Internal(e) && Enabled(Run(c, trace), e)
  {
    InvRun(c, trace);
    var s := Run(c, trace);
    if s.batches != map[] {
      var b :| b in s.batches;
      BatchMoves(s, b);
    } else {
      NothingInFlight(s);
      if s.loop.Top? {
        assert Enabled(s, Iterate);
      } else if s.loop.Receiving? {
        assert Enabled(s, ReceiveFails);
      } else if s.stopper.AwaitLoop? {
        assert Enabled(s, LoopAwaited);
      } else if s.stopper.AwaitBatches? {
        assert Enabled(s, BatchesAwaited);
      } else {
        assert Enabled(s, TasksAwaited);
      }
    }
  }

  lemma BatchMoves(s: State, b: nat)
    requires TaskInv(s) && b in s.batches
    ensures exists e :: Internal(e) && Enabled(s, e)
  {
    var batch := s.batches[b];
    if batch.phase.Working? {
      if AllIn(batch.results) {
        assert Enabled(s, Collect(b));
      } else {
        var k :| 0 <= k < |batch.results| && batch.results[k].None?;
        assert (b, k) in s.inFlight;
        assert Enabled(s, TaskDone(b, k, true));
      }
    } else if batch.phase.Deleting? {
      assert Enabled(s, DeleteDone(b));
    } else {
      assert Enabled(s, BatchDone(b));
    }
  }

  /** When a pending `stop` resolves, the loop is gone and nothing is pending or in flight. */
  lemma StopDrains(c: Config, trace: seq<Event>, e: Event)
    requires ValidConfig(c) && !Run(c, trace).stopper.NoStop? && Step(c, Run(c, trace), e).stopper.NoStop?
    ensures
      var s := Step(c, Run(c, trace), e);
      s.stopper.NoStop? && s.loop.Idle? && !s.hasLoop && s.inFlight == {} && s.batches == map[] && s.waiters == 0
  {
    InvRun(c, trace);
    InvRun(c, trace + [e]);
    assert (trace + [e])[..|trace|] == trace;
    if Run(c, trace).batches == map[] { NothingInFlight(Run(c, trace)); }
    hide RecordInv, Successes, DeleteEntries, Turn;
  }

  // ---------------------------------------------------------------- the drain ends

  function Missing(results: seq<Option<bool>>): (n: nat)
    ensures n <= |results|
  {
    if results == [] then 0 else Missing(results[..|results| - 1]) + if results[|results| - 1].None? then 1 else 0
  }

  lemma {:induction false} MissingUpdate(results: seq<Option<bool>>, k: nat, x: bool)
    requires k < |results| && results[k].None?
    ensures Missing(results[k := Some(x)]) + 1 == Missing(results)
  {
    var n := |results| - 1;
    if k < n {
      assert results[k := Some(x)][..n] == results[..n][k := Some(x)];
      MissingUpdate(results[..n], k, x);
    } else {
      assert results[k := Some(x)][..n] == results[..n];
    }
  }

  function BatchWeight(batches: map<nat, Batch>, b: nat): nat {
    if b !in batches then 0
    else match batches[b].phase
      case Working => 3 + Missing(batches[b].results)
      case Deleting => 2
      case Finishing => 1
  }

  function BatchesWeight(batches: map<nat, Batch>, n: nat): nat {
    if n == 0 then 0 else BatchesWeight(batches, n - 1) + BatchWeight(batches, n - 1)
  }

  lemma {:induction false} BatchesWeightUpdate(x: map<nat, Batch>, y: map<nat, Batch>, b: nat, n: nat)
    requires forall i: nat :: i < n && i != b ==> BatchWeight(x, i) == BatchWeight(y, i)
    ensures BatchesWeight(y, n) + (if b < n then BatchWeight(x, b) else 0)
         == BatchesWeight(x, n) + (if b < n then BatchWeight(y, b) else 0)
  {
    if n > 0 { BatchesWeightUpdate(x, y, b, n - 1); }
  }

  function StopWeight(s: Stopper): nat {
    match s
    case NoStop => 0
    case AwaitLoop => 3
    case AwaitBatches(_) => 2
    case AwaitTasks(_) => 1
  }

  function LoopWeight(l: Loop): nat {
    match l
    case Idle => 0
    case Top => 1
    case Blocked => 2
    case Receiving(_, _) => 15
  }

  /** What remains to be done before a pending `stop` resolves. */
  function Remaining(s: State): nat {
    LoopWeight(s.loop) + StopWeight(s.stopper) + BatchesWeight(s.batches, s.next)
  }

  /** Replacing a batch by a lighter one, or removing it, makes the whole lighter. */
  lemma LighterBatch(x: map<nat, Batch>, y: map<nat, Batch>, b: nat, n: nat)
    requires b < n && BatchWeight(y, b) < BatchWeight(x, b)
    requires forall i: nat :: i != b ==> (i in x <==> i in y) && (i in x ==> x[i] == y[i])
    ensures BatchesWeight(y, n) < BatchesWeight(x, n)
  {
    BatchesWeightUpdate(x, y, b, n);
  }

  lemma RemainingBatch(c: Config, s: State, e: Event)
    requires TaskInv(s) && RecordInv(s) && Enabled(s, e)
    requires e.TaskDone? || e.Collect? || e.DeleteDone? || e.BatchDone?
    ensures BatchesWeight(Apply(c, s, e).batches, s.next) < BatchesWeight(s.batches, s.next)
  {
    var s' := Apply(c, s, e);
    assert e.b < s.next && (e.TaskDone? ==> s.batches[e.b].phase.Working? && s.batches[e.b].results[e.k].None?);
    hide TaskInv, RecordInv, BatchesWeight, DeleteEntries, Successes;
    if e.TaskDone? {
      MissingUpdate(s.batches[e.b].results, e.k, e.ok);
    }
    LighterBatch(s.batches, s'.batches, e.b, s.next);
  }

  lemma NewBatchWeight(batches: map<nat, Batch>, n: nat, batch: Batch)
    requires n !in batches && batch.phase.Working? && |batch.results| <= 10
    ensures BatchesWeight(batches[n := batch], n + 1) <= BatchesWeight(batches, n) + 13
  {
    BatchesWeightUpdate(batches, batches[n := batch], n, n);
  }

  lemma ReceivedState(c: Config, s: State, e: Event)
    requires Enabled(s, e) && e.Received?
    ensures
      var s', batch := Apply(c, s, e), Batch(e.messages, seq(|e.messages|, _ => None), Working);
      && s.loop.Receiving? && s'.loop.Top? && s'.stopper == s.stopper
      && s'.next == (if e.messages == [] then s.next else s.next + 1)
      && s'.batches == if e.messages == [] then s.batches else s.batches[s.next := batch]
  {
  }

  lemma RemainingReceived(c: Config, s: State, e: Event)
    requires ValidConfig(c) && Inv(c, s) && Enabled(s, e) && e.Received?
    ensures Remaining(Apply(c, s, e)) < Remaining(s)
  {
    TaskPremises(c, s, e);
    ReceivedState(c, s, e);
    hide Inv, Enabled, Apply, BatchesWeight;
    if e.messages != [] {
      NewBatchWeight(s.batches, s.next, Batch(e.messages, seq(|e.messages|, _ => None), Working));
    }
  }

  /** Once a stop is pending every internal step uses something up, so the drain ends. */
  lemma DrainStep(c: Config, s: State, e: Event)
    requires ValidConfig(c) && Inv(c, s) && !s.stopper.NoStop? && Internal(e) && Enabled(s, e)
    ensures Remaining(Step(c, s, e)) < Remaining(s)
  {
    if e.Received? {
      RemainingReceived(c, s, e);
    } else if e.TaskDone? || e.Collect? || e.DeleteDone? || e.BatchDone? {
      RemainingBatch(c, s, e);
    }
  }

  /** The steps of `tail` all happen, one after the other. */
  ghost predicate AllHappen(c: Config, trace: seq<Event>, tail: seq<Event>) {
    tail == [] || (AllHappen(c, trace, tail[..|tail| - 1])
                   && Enabled(Run(c, trace + tail[..|tail| - 1]), tail[|tail| - 1]) && Internal(tail[|tail| - 1]))
  }

  /** A stop, once asked for, is over after a number of steps known in advance, whatever order they come in. */
  lemma {:induction false} DrainBounded(c: Config, trace: seq<Event>, tail: seq<Event>)
    requires ValidConfig(c) && AllHappen(c, trace, tail)
    requires forall n :: 0 <= n < |tail| ==> !Run(c, trace + tail[..n]).stopper.NoStop?
    ensures |tail| + Remaining(Run(c, trace + tail)) <= Remaining(Run(c, trace))
  {
    if tail == [] {
      assert trace + tail == trace;
    } else {
      var n := |tail| - 1;
      forall m | 0 <= m < n ensures !Run(c, trace + tail[..n][..m]).stopper.NoStop? {
        assert tail[..n][..m] == tail[..m];
      }
      DrainBounded(c, trace, tail[..n]);
      InvRun(c, trace + tail[..n]);
      DrainStep(c, Run(c, trace + tail[..n]), tail[n]);
      assert (trace + tail)[..|trace + tail| - 1] == trace + tail[..n];
    }
  }

  // ---------------------------------------------------------------- every message is settled once

  function Known(s: State, b: nat): Option<Batch> {
    if b in s.batches then Some(s.batches[b]) else if b in s.done then Some(s.done[b]) else None
  }

  function SuccessesOf(batch: Batch): seq<Message> {
    if |batch.messages| == |batch.results| then Successes(batch.messages, batch.results) else []
  }

  lemma ResultsFinalTouched(c: Config, s: State, e: Event, b: nat, k: nat)
    requires TaskInv(s) && RecordInv(s) && Known(s, b).Some? && k < |Known(s, b).value.messages| && Enabled(s, e)
        && Touches(e)
    ensures
      var s' := Apply(c, s, e);
      && Known(s', b).Some? && Known(s', b).value.messages == Known(s, b).value.messages
      && |Known(s', b).value.results| == |Known(s, b).value.results| == |Known(s, b).value.messages|
      && (Known(s, b).value.results[k].Some? ==> Known(s', b).value.results[k] == Known(s, b).value.results[k])
  {
    assert b in s.done ==> WellFormed(s.done[b]);
    assert b in s.batches ==> WellFormed(s.batches[b]);
  }

  /** A received batch is never forgotten, its messages stay, and a result once given is final. */
  lemma ResultsFinal(c: Config, s: State, e: Event, b: nat, k: nat)
    requires TaskInv(s) && RecordInv(s) && Known(s, b).Some? && k < |Known(s, b).value.messages|
    ensures
      var s' := Step(c, s, e);
      && Known(s', b).Some? && Known(s', b).value.messages == Known(s, b).value.messages
      && |Known(s', b).value.results| == |Known(s, b).value.results| == |Known(s, b).value.messages|
      && (Known(s, b).value.results[k].Some? ==> Known(s', b).value.results[k] == Known(s, b).value.results[k])
  {
    if Enabled(s, e) && Touches(e) {
      ResultsFinalTouched(c, s, e, b, k);
    } else if Enabled(s, e) {
      OthersLeaveBatches(c, s, e);
    }
  }

  // Where batches and results come from.

  ghost predicate Happened(c: Config, trace: seq<Event>, n: nat, e: Event) {
    n < |trace| && trace[n] == e && Enabled(Run(c, trace[..n]), e)
  }

  lemma HappenedSnoc(c: Config, trace: seq<Event>, n: nat, e: Event)
    requires trace != [] && Happened(c, trace[..|trace| - 1], n, e)
    ensures Happened(c, trace, n, e)
  {
    assert trace[..|trace| - 1][..n] == trace[..n];
  }

  /** A batch that was not there before has just been received. */
  lemma NewBatch(c: Config, s: State, e: Event, b: nat)
    requires TaskInv(s) && RecordInv(s) && Enabled(s, e) && Known(s, b).None? && Known(Apply(c, s, e), b).Some?
    ensures b == s.next && e == Received(Known(Apply(c, s, e), b).value.messages)
    ensures forall k :: 0 <= k < |Known(Apply(c, s, e), b).value.results| ==>
              Known(Apply(c, s, e), b).value.results[k].None?
  {
    hide TaskInv, Successes, DeleteEntries, Tasks;
  }

  /** The messages of batch `b` are those of one receive, the `b`-th that was not empty. */
  lemma {:induction false} BatchHistory(c: Config, trace: seq<Event>, b: nat) returns (n: nat)
    requires ValidConfig(c) && Known(Run(c, trace), b).Some?
    ensures Happened(c, trace, n, Received(Known(Run(c, trace), b).value.messages)) && Run(c, trace[..n]).next == b
  {
    var m := |trace| - 1;
    var front := trace[..m];
    var s, e := Run(c, front), trace[m];
    InvRun(c, front);
    if Known(s, b).Some? {
      n := BatchHistory(c, front, b);
      HappenedSnoc(c, trace, n, Received(Known(s, b).value.messages));
      assert front[..n] == trace[..n];
      SameMessages(c, s, e, b);
    } else {
      NewBatch(c, s, e, b);
      n := m;
    }
  }

  lemma SameMessages(c: Config, s: State, e: Event, b: nat)
    requires TaskInv(s) && RecordInv(s) && Known(s, b).Some?
    ensures Known(Step(c, s, e), b).Some? && Known(Step(c, s, e), b).value.messages == Known(s, b).value.messages
  {
    assert b in s.done ==> WellFormed(s.done[b]);
    assert b in s.batches ==> WellFormed(s.batches[b]);
    ResultsFinal(c, s, e, b, 0);
  }

  lemma SameResultsTouched(c: Config, s: State, e: Event, b: nat)
    requires RecordInv(s) && Enabled(s, e) && Known(s, b).Some? && !(e.TaskDone? && e.b == b) && Touches(e)
    ensures Known(Apply(c, s, e), b).Some? && Known(Apply(c, s, e), b).value.results == Known(s, b).value.results
  {
    assert e.BatchDone? ==> e.b !in s.done;
    hide Successes, DeleteEntries, Tasks, Turn, AllIn;
  }

  /** Only the end of one of its tasks changes the results of a batch. */
  lemma SameResults(c: Config, s: State, e: Event, b: nat)
    requires RecordInv(s) && Enabled(s, e) && Known(s, b).Some? && !(e.TaskDone? && e.b == b)
    ensures Known(Apply(c, s, e), b).Some? && Known(Apply(c, s, e), b).value.results == Known(s, b).value.results
  {
    if Touches(e) {
      SameResultsTouched(c, s, e, b);
    } else {
      OthersLeaveBatches(c, s, e);
    }
    hide Apply, RecordInv;
  }

  /** A result that was missing before has just been given, as the task ended. */
  lemma NewResult(c: Config, s: State, e: Event, b: nat, k: nat)
    requires RecordInv(s) && Enabled(s, e) && Known(s, b).Some? && k < |Known(s, b).value.results|
    requires Known(s, b).value.results[k].None? && Known(Apply(c, s, e), b).Some?
    requires k < |Known(Apply(c, s, e), b).value.results| && Known(Apply(c, s, e), b).value.results[k].Some?
    ensures e == TaskDone(b, k, Known(Apply(c, s, e), b).value.results[k].value)
  {
    if !(e.TaskDone? && e.b == b) {
      SameResults(c, s, e, b);
    } else {
      assert Known(Apply(c, s, e), b).value.results == s.batches[b].results[e.k := Some(e.ok)];
    }
    hide RecordInv, Apply;
  }

  lemma {:induction false} ResultHistory(c: Config, trace: seq<Event>, b: nat, k: nat) returns (n: nat)
    requires ValidConfig(c) && Known(Run(c, trace), b).Some? && k < |Known(Run(c, trace), b).value.results|
    requires Known(Run(c, trace), b).value.results[k].Some?
    ensures Happened(c, trace, n, TaskDone(b, k, Known(Run(c, trace), b).value.results[k].value))
  {
    var m := |trace| - 1;
    var front := trace[..m];
    var s, e := Run(c, front), trace[m];
    InvRun(c, front);
    hide Inv, CapacityInv, StopInv, Apply;
    if Known(s, b).None? {
      NewBatch(c, s, e, b);
    }
    SameMessages(c, s, e, b);
    KnownSizes(c, front, b);
    KnownSizes(c, trace, b);
    var before := Known(s, b).value.results[k];
    if before.Some? {
      ResultsFinal(c, s, e, b, k);
      n := ResultHistory(c, front, b, k);
      HappenedSnoc(c, trace, n, TaskDone(b, k, before.value));
    } else {
      NewResult(c, s, e, b, k);
      n := m;
    }
  }

  lemma KnownSizes(c: Config, trace: seq<Event>, b: nat)
    requires ValidConfig(c) && Known(Run(c, trace), b).Some?
    ensures |Known(Run(c, trace), b).value.results| == |Known(Run(c, trace), b).value.messages|
  {
    InvRun(c, trace);
  }

  lemma GivenResult(c: Config, s: State, b: nat, k: nat, ok: bool)
    requires Enabled(s, TaskDone(b, k, ok))
    ensures
      var batch := Known(Apply(c, s, TaskDone(b, k, ok)), b);
      batch.Some? && k < |batch.value.results| && batch.value.results[k] == Some(ok)
  {
  }

  lemma {:induction false} ResultStays(c: Config, trace: seq<Event>, b: nat, k: nat, ok: bool, n: nat)
    requires ValidConfig(c) && Happened(c, trace, n, TaskDone(b, k, ok))
    ensures
      var batch := Known(Run(c, trace), b);
      batch.Some? && k < |batch.value.results| && batch.value.results[k] == Some(ok)
  {
    var m := |trace| - 1;
    var front := trace[..m];
    InvRun(c, front);
    if n == m {
      GivenResult(c, Run(c, front), b, k, ok);
    } else {
      assert front[..n] == trace[..n];
      ResultStays(c, front, b, k, ok, n);
      KnownSizes(c, front, b);
      ResultsFinal(c, Run(c, front), trace[m], b, k);
    }
  }

  /** What stands as the result of a message is how its task ended. */
  lemma ResultIff(c: Config, trace: seq<Event>, b: nat, k: nat, ok: bool)
    requires ValidConfig(c) && Known(Run(c, trace), b).Some? && k < |Known(Run(c, trace), b).value.results|
    ensures Known(Run(c, trace), b).value.results[k] == Some(ok)
       <==> exists n :: Happened(c, trace, n, TaskDone(b, k, ok))
  {
    if n: nat :| Happened(c, trace, n, TaskDone(b, k, ok)) {
      ResultStays(c, trace, b, k, ok, n);
    }
    if Known(Run(c, trace), b).value.results[k] == Some(ok) {
      var n := ResultHistory(c, trace, b, k);
    }
  }

  // What is deleted.

  /** The positions of the messages whose task succeeded. */
  ghost function SucceededAt(results: seq<Option<bool>>): set<nat> {
    set k: nat | k < |results| && results[k] == Some(true)
  }

  lemma {:induction false} SuccessesAt(messages: seq<Message>, results: seq<Option<bool>>) returns (at: seq<nat>)
    requires |messages| == |results|
    ensures Enumerates(at, SucceededAt(results)) && |Successes(messages, results)| == |at|
    ensures forall j :: 0 <= j < |at| ==> at[j] < |messages| && Successes(messages, results)[j] == messages[at[j]]
  {
    at := [];
    if messages != [] {
      var n := |messages| - 1;
      at := SuccessesAt(messages[..n], results[..n]);
      if results[n] == Some(true) {
        EnumeratesSnoc(at, SucceededAt(results[..n]), n);
        at := at + [n];
        assert SucceededAt(results) == SucceededAt(results[..n]) + {n};
      } else {
        assert SucceededAt(results) == SucceededAt(results[..n]);
      }
    }
  }

  /** Entry `j` of a request asks for this message. */
  ghost predicate EntryFor(entry: DeleteEntry, j: nat, message: Message) {
    && entry.id == Text.Decimal(j)
    && entry.receiptHandle == match message.receiptHandle case Some(handle) => handle case None => ""
  }

  /** The request asks for the messages that succeeded and no others, in the order of the batch. */
  ghost predicate AsksForSuccesses(entries: seq<DeleteEntry>, batch: Batch) {
    exists at: seq<nat> ::
      Enumerates(at, SucceededAt(batch.results)) && |entries| == |at|
      && forall j :: 0 <= j < |at| ==> at[j] < |batch.messages| && EntryFor(entries[j], j, batch.messages[at[j]])
  }

  lemma RequestMeaning(batch: Batch)
    requires |batch.messages| == |batch.results|
    ensures AsksForSuccesses(DeleteEntries(SuccessesOf(batch)), batch)
    ensures SuccessesOf(batch) != [] <==> exists k :: 0 <= k < |batch.results| && batch.results[k] == Some(true)
  {
    var at := SuccessesAt(batch.messages, batch.results);
    if k :| 0 <= k < |batch.results| && batch.results[k] == Some(true) {
      assert k in SucceededAt(batch.results) && k in at;
    }
    if at != [] { assert at[0] in at; }
  }

  /** Once the tasks of a batch are over, a request for it has been made exactly if some task succeeded, only one, and
      it asks for exactly the messages whose task succeeded. */
  lemma DeletedExactly(c: Config, trace: seq<Event>, b: nat)
    requires ValidConfig(c) && Known(Run(c, trace), b).Some? && !Known(Run(c, trace), b).value.phase.Working?
    ensures
      var s, batch := Run(c, trace), Known(Run(c, trace), b).value;
      && ((exists i :: 0 <= i < |s.deletes| && s.deletes[i].0 == b)
          <==> exists k :: 0 <= k < |batch.results| && batch.results[k] == Some(true))
      && (forall i :: 0 <= i < |s.deletes| && s.deletes[i].0 == b ==> AsksForSuccesses(s.deletes[i].1, batch))
      && forall i, j :: 0 <= i < j < |s.deletes| && s.deletes[i].0 == b ==> s.deletes[j].0 != b
  {
    DeleteRun(c, trace);
    KnownSizes(c, trace, b);
    var s, batch := Run(c, trace), Known(Run(c, trace), b).value;
    RequestMeaning(batch);
    assert Deletes(s, b) <==> SuccessesOf(batch) != [];
    hide AsksForSuccesses, SuccessesOf, Known, DeleteEntries;
  }

  /** The batch is past its collection and has something to delete. */
  ghost predicate Deletes(s: State, b: nat) {
    Known(s, b).Some? && !Known(s, b).value.phase.Working? && SuccessesOf(Known(s, b).value) != []
  }

  /** One delete request per batch with a success, none for the others, holding exactly the successes. */
  ghost predicate DeleteInv(s: State) {
    && (forall i :: 0 <= i < |s.deletes| ==>
          var (b, entries) := s.deletes[i];
          Deletes(s, b) && entries == DeleteEntries(SuccessesOf(Known(s, b).value)))
    && (forall i, j :: 0 <= i < j < |s.deletes| ==> s.deletes[i].0 != s.deletes[j].0)
    && forall b :: Deletes(s, b) ==> exists i :: 0 <= i < |s.deletes| && s.deletes[i].0 == b
  }

  lemma DeleteFrame(s: State, s': State)
    requires DeleteInv(s) && s'.deletes == s.deletes
    requires forall b :: Deletes(s', b) ==> Deletes(s, b)
    requires forall b :: Deletes(s, b) ==>
        Deletes(s', b) && SuccessesOf(Known(s', b).value) == SuccessesOf(Known(s, b).value)
    ensures DeleteInv(s')
  {
    forall i | 0 <= i < |s.deletes| ensures Deletes(s', s.deletes[i].0) {
      assert Deletes(s, s.deletes[i].0);
    }
    forall b | Deletes(s', b) ensures exists i :: 0 <= i < |s'.deletes| && s'.deletes[i].0 == b {
      assert Deletes(s, b);
    }
  }

  /** Nothing but its collection takes a batch past collecting, and nothing changes it after that. */
  lemma KnownSame(c: Config, s: State, e: Event, b: nat)
    requires TaskInv(s) && RecordInv(s) && Enabled(s, e) && Touches(e)
    requires !e.Collect? || e.b != b
    ensures
      var k, k' := Known(s, b), Known(Apply(c, s, e), b);
      && (k.Some? && !k.value.phase.Working? ==>
            k'.Some? && !k'.value.phase.Working? && k'.value.messages == k.value.messages
                && k'.value.results == k.value.results)
      && (k'.Some? && !k'.value.phase.Working? ==> k.Some? && !k.value.phase.Working?)
  {
    assert e.TaskDone? ==> (e.b, e.k) in s.inFlight && s.batches[e.b].results[e.k].None?;
    assert e.TaskDone? ==> WellFormed(s.batches[e.b]) && s.batches[e.b].phase.Working?;
  }

  lemma DeletesSame(c: Config, s: State, e: Event, b: nat)
    requires TaskInv(s) && RecordInv(s) && Enabled(s, e)
    requires !e.Collect? || e.b != b || SuccessesOf(s.batches[b]) == []
    ensures Deletes(s, b) <==> Deletes(Apply(c, s, e), b)
    ensures Deletes(s, b) ==> SuccessesOf(Known(Apply(c, s, e), b).value) == SuccessesOf(Known(s, b).value)
  {
    if !Touches(e) {
      OthersLeaveBatches(c, s, e);
    } else if !e.Collect? || e.b != b {
      KnownSame(c, s, e, b);
    }
  }

  lemma DeleteAdded(s: State, s': State, b: nat, entries: seq<DeleteEntry>)
    requires DeleteInv(s) && !Deletes(s, b) && s'.deletes == s.deletes + [(b, entries)]
    requires Deletes(s', b) && entries == DeleteEntries(SuccessesOf(Known(s', b).value))
    requires forall x :: Deletes(s', x) && x != b ==> Deletes(s, x)
    requires forall x :: Deletes(s, x) ==>
        Deletes(s', x) && SuccessesOf(Known(s', x).value) == SuccessesOf(Known(s, x).value)
    ensures DeleteInv(s')
  {
    hide SuccessesOf, Known, DeleteEntries;
    var n := |s.deletes|;
    forall i | 0 <= i < n ensures Deletes(s', s.deletes[i].0) && s.deletes[i].0 != b {
      assert Deletes(s, s.deletes[i].0);
    }
    assert s'.deletes[n].0 == b;
    forall x | Deletes(s', x) ensures exists i :: 0 <= i < |s'.deletes| && s'.deletes[i].0 == x {
      if x != b {
        var i :| 0 <= i < n && s.deletes[i].0 == x;
        assert s'.deletes[i].0 == x;
      }
    }
  }

  lemma DeleteCollect(c: Config, s: State, e: Event)
    requires TaskInv(s) && RecordInv(s) && DeleteInv(s) && Enabled(s, e) && e.Collect?
        && SuccessesOf(s.batches[e.b]) != []
    ensures DeleteInv(Apply(c, s, e))
  {
    var s' := Apply(c, s, e);
    CollectAppends(c, s, e);
    hide Apply, DeleteInv, TaskInv, RecordInv, Known, SuccessesOf;
    forall x: nat | x != e.b
      ensures Deletes(s, x) <==> Deletes(s', x)
      ensures Deletes(s, x) ==> SuccessesOf(Known(s', x).value) == SuccessesOf(Known(s, x).value)
    {
      DeletesSame(c, s, e, x);
    }
    DeleteAdded(s, s', e.b, DeleteEntries(SuccessesOf(Known(s', e.b).value)));
  }

  lemma CollectAppends(c: Config, s: State, e: Event)
    requires TaskInv(s) && RecordInv(s) && Enabled(s, e) && e.Collect? && SuccessesOf(s.batches[e.b]) != []
    ensures
      var s' := Apply(c, s, e);
      && !Deletes(s, e.b) && Deletes(s', e.b)
      && s'.deletes == s.deletes + [(e.b, DeleteEntries(SuccessesOf(Known(s', e.b).value)))]
  {
  }

  lemma DeleteStep(c: Config, s: State, e: Event)
    requires TaskInv(s) && RecordInv(s) && DeleteInv(s)
    ensures DeleteInv(Step(c, s, e))
  {
    if Enabled(s, e) {
      if e.Collect? && SuccessesOf(s.batches[e.b]) != [] {
        DeleteCollect(c, s, e);
      } else {
        forall b: nat { DeletesSame(c, s, e, b); }
        DeleteFrame(s, Step(c, s, e));
      }
    }
  }

  lemma {:induction false} DeleteRun(c: Config, trace: seq<Event>)
    requires ValidConfig(c)
    ensures DeleteInv(Run(c, trace))
  {
    if trace != [] {
      InvRun(c, trace[..|trace| - 1]);
      DeleteRun(c, trace[..|trace| - 1]);
      DeleteStep(c, Run(c, trace[..|trace| - 1]), trace[|trace| - 1]);
    }
  }

  /** A delete request stays within the queue's limits: at most ten entries, no id twice. */
  lemma DeleteRequestShape(c: Config, trace: seq<Event>, i: nat)
    requires ValidConfig(c) && i < |Run(c, trace).deletes|
    ensures
      var entries := Run(c, trace).deletes[i].1;
      1 <= |entries| <= 10 && forall j, k :: 0 <= j < k < |entries| ==> entries[j].id != entries[k].id
  {
    InvRun(c, trace);
    DeleteRun(c, trace);
    var entries := Run(c, trace).deletes[i].1;
    forall j, k | 0 <= j < k < |entries| ensures entries[j].id != entries[k].id {
      if entries[j].id == entries[k].id {
        Text.DecimalInjective(j, k);
      }
    }
  }

  /** Over any run that has drained, each of the batches received has a result for every message, and exactly one delete
      request, made of its successes in order, if it has any success, and none otherwise. */
  lemma DrainedSettlement(c: Config, trace: seq<Event>, b: nat)
    requires ValidConfig(c) && Run(c, trace).batches == map[] && b < Run(c, trace).next
    ensures
      var s := Run(c, trace);
      && b in s.done && |s.done[b].results| == |s.done[b].messages|
      && (forall k :: 0 <= k < |s.done[b].results| ==> s.done[b].results[k].Some?)
      && (forall i :: 0 <= i < |s.deletes| && s.deletes[i].0 == b ==> AsksForSuccesses(s.deletes[i].1, s.done[b]))
      && ((exists i :: 0 <= i < |s.deletes| && s.deletes[i].0 == b)
          <==> exists k :: 0 <= k < |s.done[b].results| && s.done[b].results[k] == Some(true))
      && (forall i :: 0 <= i < |s.deletes| && s.deletes[i].0 == b ==>
          s.deletes[i].1 == DeleteEntries(SuccessesOf(s.done[b])))
      && (forall i, j :: 0 <= i < j < |s.deletes| && s.deletes[i].0 == b ==> s.deletes[j].0 != b)
      && (SuccessesOf(s.done[b]) != [] <==> exists i :: 0 <= i < |s.deletes| && s.deletes[i].0 == b)
  {
    InvRun(c, trace);
    DeleteRun(c, trace);
    var s := Run(c, trace);
    assert Known(s, b) == Some(s.done[b]);
    assert Deletes(s, b) <==> SuccessesOf(s.done[b]) != [];
    DeletedExactly(c, trace, b);
    hide AsksForSuccesses, SuccessesOf, DeleteEntries, Inv;
  }
}
