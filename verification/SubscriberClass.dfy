/** The subscriber as it is written: mutable fields, one method for each stretch of code between two awaits. */
module SubscriberClass {
  import opened Prelude
  import opened Subscriber
  import Text

  class AbortController {
    var aborted: bool

    constructor ()
      ensures !aborted
    {
      aborted := false;
    }

    method Abort()
      modifies this
      ensures aborted
    {
      aborted := true;
    }
  }

  /** One more request, for exactly the messages that succeeded, or none if no message did. */
  ghost predicate Collected(batch: Batch, b: nat, before: seq<(nat, seq<DeleteEntry>)>,
                            after: seq<(nat, seq<DeleteEntry>)>) {
    if exists k :: 0 <= k < |batch.results| && batch.results[k] == Some(true)
    then |after| == |before| + 1 && after[..|before|] == before && after[|before|].0 == b
         && AsksForSuccesses(after[|before|].1, batch)
    else after == before
  }

  lemma CollectedBy(batch: Batch, b: nat, before: seq<(nat, seq<DeleteEntry>)>)
    requires |batch.messages| == |batch.results|
    ensures
      var successes := Successes(batch.messages, batch.results);
      Collected(batch, b, before, if successes == [] then before else before + [(b, DeleteEntries(successes))])
  {
    RequestMeaning(batch);
  }

  class SqsSubscriber {
    const config: Config
    /** `loopPromise !== null`, and the await at which the loop is suspended while no receive is out. */
    var hasLoop: bool
    var loop: Loop
    var stopping: bool
    var capacityWaiters: nat
    var inFlight: set<(nat, nat)>
    var pendingBatches: map<nat, Batch>
    var next: nat
    /** The receive that is out, if any, and how many messages it asked for. */
    var receiveAbortController: AbortController?
    var reserved: nat
    var stopper: Stopper
    /** What happened so far, for the record. */
    var done: map<nat, Batch>
    var deletes: seq<(nat, seq<DeleteEntry>)>

    ghost function Now(): State
      reads this, receiveAbortController
    {
      var at := if receiveAbortController == null then loop else Receiving(reserved, receiveAbortController.aborted);
      State(hasLoop, at, stopping, capacityWaiters, inFlight, pendingBatches, next, stopper, done, deletes)
    }

    ghost predicate Linked()
      reads this
    {
      ValidConfig(config) && !loop.Receiving? && (receiveAbortController != null ==> loop.Top?)
    }

    /** Between two awaits: the capacity is respected, waiter, loop and stop fit together, a receive that is out is
        aborted exactly when a stop has been asked for, and tasks, results and batches agree. */
    ghost predicate Valid()
      reads this, receiveAbortController
    {
      Linked() && Inv(config, Now())
    }

    constructor (config: Config)
      requires ValidConfig(config)
      ensures Valid() && Now() == INITIAL && this.config == config && receiveAbortController == null
    {
      this.config := config;
      hasLoop, loop, stopping, capacityWaiters := false, Idle, false, 0;
      inFlight, pendingBatches, next := {}, map[], 0;
      receiveAbortController, reserved, stopper, done, deletes := null, 0, NoStop, map[], [];
      new;
      InvRun(config, []);
    }

    method ReleaseCapacityWaiters()
      requires Linked()
      modifies this`capacityWaiters, this`loop
      ensures Linked() && Now() == Released(old(Now()))
    {
      while capacityWaiters > 0
        invariant Linked() && capacityWaiters <= old(capacityWaiters)
        invariant loop == if old(loop).Blocked? && capacityWaiters < old(capacityWaiters) then Top else old(loop)
        modifies this`capacityWaiters, this`loop
      {
        if loop.Blocked? { loop := Top; }
        capacityWaiters := capacityWaiters - 1;
      }
    }

    /** One turn of `runLoop`, up to its next await. */
    method RunLoop()
      requires Linked() && receiveAbortController == null
      modifies this
      ensures Linked() && Now() == Turn(config, old(Now()))
      ensures receiveAbortController == null || fresh(receiveAbortController)
    {
      if stopping {
        loop := Idle;
        return;
      }
      var availableCapacity := config.maxInFlight - |inFlight|;
      if availableCapacity <= 0 {
        WaitForCapacity();
        return;
      }
      loop := Top;
      receiveAbortController := new AbortController();
      reserved := Min(Min(config.batchSize, availableCapacity), 10);
    }

    method WaitForCapacity()
      requires Linked() && receiveAbortController == null
      modifies this`loop, this`capacityWaiters
      ensures Linked()
      ensures Now() == if stopping || |inFlight| < config.maxInFlight then old(Now()).(loop := Top)
                       else old(Now()).(loop := Blocked, waiters := old(capacityWaiters) + 1)
    {
      if stopping || |inFlight| < config.maxInFlight {
        loop := Top;
        return;
      }
      capacityWaiters := capacityWaiters + 1;
      loop := Blocked;
    }

    method StartLoop()
      requires Valid() && stopper.NoStop?
      modifies this
      ensures Valid() && Now() == Step(config, old(Now()), Start)
    {
      assert !hasLoop ==> receiveAbortController == null;
      hide Inv;
      InvStep(config, Now(), Start);
      if hasLoop {
        return;
      }
      stopping := false;
      hasLoop := true;
      RunLoop();
    }

    /** The synchronous part of `stop`: the receive that is out is aborted, and everybody waiting is woken. */
    method StopLoop()
      requires Valid() && Enabled(Now(), Stop)
      modifies this, receiveAbortController
      ensures Valid() && Now() == Step(config, old(Now()), Stop)
      ensures receiveAbortController == old(receiveAbortController)
      ensures receiveAbortController != null ==> receiveAbortController.aborted
    {
      hide Inv;
      InvStep(config, Now(), Stop);
      stopping := true;
      if receiveAbortController != null { receiveAbortController.Abort(); }
      ReleaseCapacityWaiters();
      stopper := if hasLoop then AwaitLoop else AwaitBatches(pendingBatches.Keys);
    }

    method LoopContinues()
      requires Valid() && Enabled(Now(), Iterate)
      modifies this
      ensures Valid() && Now() == Step(config, old(Now()), Iterate)
    {
      hide Inv;
      InvStep(config, Now(), Iterate);
      RunLoop();
    }

    /** The receive answers: every message gets a task, and the batch is tracked until its promise settles. */
    method ReceiveAnswers(abortController: AbortController, messages: seq<Message>)
      requires Valid() && receiveAbortController == abortController && Enabled(Now(), Received(messages))
      modifies this
      ensures Valid() && Now() == Step(config, old(Now()), Received(messages))
    {
      hide Inv;
      InvStep(config, Now(), Received(messages));
      if |messages| > 0 {
        ProcessBatch(messages);
      }
      if receiveAbortController == abortController { receiveAbortController := null; }
    }

    method ProcessBatch(messages: seq<Message>)
      modifies this`inFlight, this`pendingBatches, this`next
      ensures inFlight == old(inFlight) + Tasks(old(next), |messages|) && next == old(next) + 1
      ensures pendingBatches == old(pendingBatches)[old(next) := Batch(messages, seq(|messages|, _ => None), Working)]
    {
      for k := 0 to |messages|
        invariant inFlight == old(inFlight) + Tasks(next, k)
        invariant next == old(next) && pendingBatches == old(pendingBatches)
      {
        assert Tasks(next, k + 1) == Tasks(next, k) + {(next, k)};
        inFlight := inFlight + {(next, k)};
      }
      pendingBatches := pendingBatches[next := Batch(messages, seq(|messages|, _ => None), Working)];
      next := next + 1;
    }

    /** It fails, because it was aborted or for another reason. */
    method ReceiveThrows(abortController: AbortController)
      requires Valid() && receiveAbortController == abortController
      modifies this
      ensures Valid() && Now() == Step(config, old(Now()), ReceiveFails)
    {
      hide Inv;
      InvStep(config, Now(), ReceiveFails);
      if receiveAbortController == abortController { receiveAbortController := null; }
    }

    method TaskSettles(b: nat, k: nat, ok: bool)
      requires Valid() && Enabled(Now(), TaskDone(b, k, ok))
      modifies this
      ensures Valid() && Now() == Step(config, old(Now()), TaskDone(b, k, ok))
    {
      hide Inv;
      InvStep(config, Now(), TaskDone(b, k, ok));
      var batch := pendingBatches[b];
      pendingBatches := pendingBatches[b := batch.(results := batch.results[k := Some(ok)])];
      inFlight := inFlight - {(b, k)};
      ReleaseCapacityWaiters();
    }

    /** All tasks of the batch have ended: its successes, and only they, are asked to be deleted. */
    method CollectResults(b: nat)
      requires Valid() && Enabled(Now(), Collect(b))
      modifies this`pendingBatches, this`deletes
      ensures Valid() && Now() == Step(config, old(Now()), Collect(b))
      ensures Collected(old(pendingBatches)[b], b, old(deletes), deletes)
    {
      hide Inv;
      InvStep(config, Now(), Collect(b));
      var batch := pendingBatches[b];
      CollectedBy(batch, b, deletes);
      hide Collected, DeleteEntries;
      var successful := SuccessfulMessages(batch.messages, batch.results);
      if |successful| == 0 {
        pendingBatches := pendingBatches[b := batch.(phase := Finishing)];
        return;
      }
      var entries := RequestEntries(successful);
      deletes := deletes + [(b, entries)];
      pendingBatches := pendingBatches[b := batch.(phase := Deleting)];
    }

    method RequestEntries(successful: seq<Message>) returns (entries: seq<DeleteEntry>)
      ensures entries == DeleteEntries(successful)
    {
      entries := [];
      for i := 0 to |successful|
        invariant entries == DeleteEntries(successful)[..i]
      {
        var handle := if successful[i].receiptHandle.Some? then successful[i].receiptHandle.value else "";
        entries := entries + [DeleteEntry(Text.Decimal(i), handle)];
      }
    }

    method SuccessfulMessages(messages: seq<Message>, results: seq<Option<bool>>) returns (successful: seq<Message>)
      requires |messages| == |results|
      ensures successful == Successes(messages, results)
    {
      successful := [];
      for k := 0 to |messages|
        invariant successful == Successes(messages[..k], results[..k])
      {
        assert messages[..k + 1][..k] == messages[..k] && results[..k + 1][..k] == results[..k];
        if results[k] == Some(true) { successful := successful + [messages[k]]; }
      }
      assert messages[..|messages|] == messages && results[..|messages|] == results;
    }

    /** The delete request succeeded, or failed and was logged. */
    method DeleteSettles(b: nat)
      requires Valid() && Enabled(Now(), DeleteDone(b))
      modifies this`pendingBatches
      ensures Valid() && Now() == Step(config, old(Now()), DeleteDone(b))
    {
      hide Inv;
      InvStep(config, Now(), DeleteDone(b));
      pendingBatches := pendingBatches[b := pendingBatches[b].(phase := Finishing)];
    }

    method BatchSettles(b: nat)
      requires Valid() && Enabled(Now(), BatchDone(b))
      modifies this
      ensures Valid() && Now() == Step(config, old(Now()), BatchDone(b))
    {
      hide Inv;
      InvStep(config, Now(), BatchDone(b));
      done := done[b := pendingBatches[b]];
      pendingBatches := pendingBatches - {b};
      ReleaseCapacityWaiters();
    }

    method StopContinues()
      requires Valid()
      requires Enabled(Now(), LoopAwaited) || Enabled(Now(), BatchesAwaited) || Enabled(Now(), TasksAwaited)
      modifies this`hasLoop, this`stopper
      ensures Valid()
      ensures Now() == Step(config, old(Now()), if old(stopper).AwaitLoop? then LoopAwaited
                                                else if old(stopper).AwaitBatches? then BatchesAwaited
                                                    else TasksAwaited)
    {
      hide Inv;
      InvStep(config, Now(), if stopper.AwaitLoop? then LoopAwaited
                             else if stopper.AwaitBatches? then BatchesAwaited else TasksAwaited);
      match stopper
      case AwaitLoop =>
        hasLoop := false;
        stopper := AwaitBatches(pendingBatches.Keys);
      case AwaitBatches(_) =>
        stopper := AwaitTasks(inFlight);
      case AwaitTasks(_) =>
        stopper := NoStop;
    }
  }
}
