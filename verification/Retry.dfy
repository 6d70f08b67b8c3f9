// internal/reconciliation/batch_queue.go and the retry part of orchestrator.go.
module Retry {

  const MAX_RETRIES: nat := 3

  type BatchID = nat

  datatype Batch = Batch(id: BatchID, failed: bool)   // failed: LastError is set

  // ---- The rate-limited work queue of client-go

  // waiting: to be added when their delay is over. dirty: to be processed, listed in queue
  // unless being processed right now.
  datatype WorkQueue = WorkQueue(
    queue: seq<BatchID>, dirty: set<BatchID>, processing: set<BatchID>,
    waiting: set<BatchID>, requeues: map<BatchID, nat>)
  {
    function NumRequeues(id: BatchID): nat { if id in requeues then requeues[id] else 0 }

    function Add(id: BatchID): WorkQueue {
      if id in dirty then this
      else this.(dirty := dirty + {id}, queue := if id in processing then queue else queue + [id])
    }

    function AddRateLimited(id: BatchID): WorkQueue {
      this.(waiting := waiting + {id}, requeues := requeues[id := NumRequeues(id) + 1])
    }

    function Due(id: BatchID): WorkQueue { this.(waiting := waiting - {id}).Add(id) }

    function Get(): WorkQueue
      requires queue != []
    {
      this.(queue := queue[1..], dirty := dirty - {queue[0]}, processing := processing + {queue[0]})
    }

    function Done(id: BatchID): WorkQueue {
      this.(processing := processing - {id}, queue := if id in dirty then queue + [id] else queue)
    }

    function Forget(id: BatchID): WorkQueue { this.(requeues := requeues - {id}) }
  }

  const EMPTY_QUEUE := WorkQueue([], {}, {}, {}, map[])

  // ---- batchQueue: batches by id, kept beside the queue of ids

  datatype Queues = Queues(work: WorkQueue, batches: map<BatchID, Batch>)
  {
    function AddRateLimited(b: Batch): Queues {
      Queues(work.AddRateLimited(b.id), batches[b.id := b])
    }

    function Forget(id: BatchID): Queues { Queues(work.Forget(id), batches - {id}) }

    // After a batch was processed: queue it again, up to the bound, or forget it.
    function Settle(b: Batch, failed: bool): Queues {
      if failed && work.NumRequeues(b.id) + 1 <= MAX_RETRIES then AddRateLimited(Batch(b.id, true))
      else Forget(b.id)
    }
  }

  class BatchQueue {
    var queue: WorkQueue
    var batches: map<BatchID, Batch>

    ghost function View(): Queues
      reads this
    {
      Queues(queue, batches)
    }

    constructor ()
      ensures View() == Queues(EMPTY_QUEUE, map[])
    {
      queue, batches := EMPTY_QUEUE, map[];
    }

    method AddRateLimited(b: Batch)
      modifies this
      ensures View() == old(View()).AddRateLimited(b)
    {
      batches := batches[b.id := b];
      queue := queue.AddRateLimited(b.id);
    }

    // No batch for an id: the id is dropped.
    method Get() returns (found: bool, b: Batch)
      requires queue.queue != []
      modifies this
      ensures found <==> old(queue.queue[0] in batches)
      ensures found ==> b == old(batches[queue.queue[0]]) && View() == Queues(old(queue).Get(), old(batches))
      ensures !found ==> var id := old(queue.queue[0]);
        View() == Queues(old(queue).Get().Done(id), old(batches)).Forget(id)
    {
      var id := queue.queue[0];
      queue := queue.Get();
      b := Batch(id, false);
      found := id in batches;
      if found {
        b := batches[id];
      } else {
        queue := queue.Done(id);
        queue := queue.Forget(id);
        batches := batches - {id};
      }
    }

    method Done(b: Batch)
      modifies `queue
      ensures queue == old(queue).Done(b.id)
    {
      queue := queue.Done(b.id);
    }

    method Forget(b: Batch)
      modifies this
      ensures View() == old(View()).Forget(b.id)
    {
      batches := batches - {b.id};
      queue := queue.Forget(b.id);
    }
  }

  // The half of processBatchWithRetry that follows processBatch: permanent means that the
  // batch is given up.
  method SettleBatch(retryQueue: BatchQueue, b: Batch, failed: bool) returns (permanent: bool)
    modifies retryQueue
    ensures retryQueue.View() == old(retryQueue.View()).Settle(b, failed)
    ensures permanent <==> failed && old(retryQueue.queue).NumRequeues(b.id) >= MAX_RETRIES
  {
    permanent := false;
    if failed {
      var retryCount := retryQueue.queue.NumRequeues(b.id) + 1;
      if retryCount <= MAX_RETRIES {
        retryQueue.AddRateLimited(Batch(b.id, true));
      } else {
        retryQueue.Forget(b);
        permanent := true;
      }
    } else {
      retryQueue.Forget(b);
    }
  }

  // ---- The main loop and the retry goroutine, interleaved

  datatype Runner = Free | Running(id: BatchID) | Settled(id: BatchID)

  datatype State = State(
    q: Queues, main: Runner, retry: Runner,
    runs: map<BatchID, nat>,        // how often each batch was processed
    succeeded: set<BatchID>, givenUp: set<BatchID>)

  datatype Step =
    | NewBatch(id: BatchID) | MainSettles(failed: bool)
    | DelayOver(id: BatchID) | RetryGets | RetrySettles(failed: bool) | RetryDone

  ghost predicate Init(s: State) {
    s == State(Queues(EMPTY_QUEUE, map[]), Free, Free, map[], {}, {})
  }

  ghost function AfterRun(s: State, id: BatchID, failed: bool): State {
    s.(q := s.q.Settle(Batch(id, failed), failed),
       succeeded := if failed then s.succeeded else s.succeeded + {id},
       givenUp := if failed && s.q.work.NumRequeues(id) >= MAX_RETRIES then s.givenUp + {id} else s.givenUp)
  }

  ghost function Runs(s: State, id: BatchID): nat { if id in s.runs then s.runs[id] else 0 }

  ghost predicate Next(s: State, step: Step, s': State) {
    match step
    case NewBatch(id) =>
      s.main == Free && id !in s.runs && s' == s.(main := Running(id), runs := s.runs[id := 1])
    case MainSettles(failed) =>
      s.main.Running? && s' == AfterRun(s, s.main.id, failed).(main := Free)
    case DelayOver(id) =>
      id in s.q.work.waiting && s' == s.(q := s.q.(work := s.q.work.Due(id)))
    case RetryGets =>
      s.retry == Free && s.q.work.queue != []
      && var id := s.q.work.queue[0];
      if id in s.q.batches
      then s' == s.(q := s.q.(work := s.q.work.Get()), retry := Running(id), runs := s.runs[id := Runs(s, id) + 1])
      else s' == s.(q := s.q.(work := s.q.work.Get().Done(id)).Forget(id))
    case RetrySettles(failed) =>
      s.retry.Running? && s' == AfterRun(s, s.retry.id, failed).(retry := Settled(s.retry.id))
    case RetryDone =>
      s.retry.Settled? && s' == s.(q := s.q.(work := s.q.work.Done(s.retry.id)), retry := Free)
  }

  ghost predicate Active(s: State, id: BatchID) { s.main == Running(id) || s.retry == Running(id) }

  ghost predicate Queued(s: State, id: BatchID) { id in s.q.work.waiting || id in s.q.work.dirty }

  ghost predicate Finished(s: State, id: BatchID) { id in s.succeeded || id in s.givenUp }

  // A batch is being processed, queued or finished, and its counts fit.
  ghost predicate BatchInv(s: State, id: BatchID)
    requires id in s.runs
  {
    var requeues := s.q.work.NumRequeues(id);
    && (Active(s, id) ==>
          !Queued(s, id) && !Finished(s, id) && s.runs[id] == requeues + 1 && requeues <= MAX_RETRIES)
    && (Queued(s, id) ==> !Finished(s, id) && id in s.q.batches && s.runs[id] == requeues <= MAX_RETRIES)
    && (Finished(s, id) ==> id !in s.q.batches && requeues == 0 && s.runs[id] <= MAX_RETRIES + 1)
    && (Active(s, id) || Queued(s, id) || Finished(s, id))
    && (id in s.givenUp ==> s.runs[id] == MAX_RETRIES + 1)
    && !(s.main == Running(id) && s.retry != Free && s.retry.id == id)
  }

  ghost predicate QueueInv(s: State) {
    var w := s.q.work;
    && w.processing == (if s.retry == Free then {} else {s.retry.id})
    && (forall i :: 0 <= i < |w.queue| ==> w.queue[i] in w.dirty && w.queue[i] !in w.processing)
    && (forall i, j :: 0 <= i < j < |w.queue| ==> w.queue[i] != w.queue[j])
    && (forall id :: id in w.dirty && id !in w.processing ==> id in w.queue)
    && w.waiting !! w.dirty
  }

  ghost predicate Known(s: State) {
    && s.q.work.waiting + s.q.work.dirty + s.succeeded + s.givenUp <= s.runs.Keys
    && s.q.batches.Keys + s.q.work.requeues.Keys <= s.runs.Keys
    && (s.main.Running? || s.main == Free) && (s.main.Running? ==> s.main.id in s.runs)
    && (s.retry != Free ==> s.retry.id in s.runs)
  }

  ghost predicate Inv(s: State) {
    && Known(s) && QueueInv(s)
    && forall id :: id in s.runs ==> BatchInv(s, id)
  }

  // Settling only adds the batch to those waiting, or takes it out of the map.
  lemma SettleShape(s: State, step: Step, s': State, id: BatchID)
    requires Next(s, step, s') && (step.MainSettles? || step.RetrySettles?)
    requires id == if step.MainSettles? then s.main.id else s.retry.id
    ensures var w, w' := s.q.work, s'.q.work;
      && w'.queue == w.queue && w'.dirty == w.dirty && w'.processing == w.processing
      && (w'.waiting == w.waiting || w'.waiting == w.waiting + {id})
      && w'.requeues.Keys <= w.requeues.Keys + {id}
    ensures s'.q.batches.Keys <= s.q.batches.Keys + {id}
    ensures s'.succeeded + s'.givenUp <= s.succeeded + s.givenUp + {id}
    ensures s'.runs == s.runs && (s'.main == s.main || s'.main == Free)
    ensures s'.retry == s.retry || (s.retry.Running? && s'.retry == Settled(s.retry.id))
  {}

  lemma SettleKeepsKnown(s: State, step: Step, s': State, id: BatchID)
    requires Known(s) && Next(s, step, s') && (step.MainSettles? || step.RetrySettles?)
    requires id == (if step.MainSettles? then s.main.id else s.retry.id) && id in s.runs
    ensures Known(s')
  {
    SettleShape(s, step, s', id);
    hide Next, AfterRun;
  }

  lemma SettleKeepsQueue(s: State, step: Step, s': State, id: BatchID)
    requires QueueInv(s) && Next(s, step, s') && (step.MainSettles? || step.RetrySettles?)
    requires id == (if step.MainSettles? then s.main.id else s.retry.id) && id !in s.q.work.dirty
    ensures QueueInv(s')
  {
    SettleShape(s, step, s', id);
    hide Next, AfterRun;
  }

  lemma SettleKeepsQueueInv(s: State, step: Step, s': State)
    requires Inv(s) && Next(s, step, s') && (step.MainSettles? || step.RetrySettles?)
    ensures QueueInv(s') && Known(s')
  {
    var id := if step.MainSettles? then s.main.id else s.retry.id;
    assert id in s.runs && id !in s.q.work.dirty by {
      hide QueueInv, AfterRun;
      assert BatchInv(s, id);
    }
    hide BatchInv, AfterRun, QueueInv, Known;
    SettleKeepsKnown(s, step, s', id);
    SettleKeepsQueue(s, step, s', id);
  }

  lemma DelayKeepsQueueInv(s: State, id: BatchID, s': State)
    requires QueueInv(s) && Known(s) && Next(s, DelayOver(id), s')
    ensures QueueInv(s') && Known(s')
  {
    hide BatchInv;
    if id !in s.q.work.processing {
      assert s'.q.work.queue == s.q.work.queue + [id];
      assert s'.q.work.queue[|s.q.work.queue|] == id;
      assert forall x :: x in s.q.work.queue ==> x in s'.q.work.queue;
    }
  }

  lemma GetKeepsQueueInv(s: State, s': State)
    requires Inv(s) && Next(s, RetryGets, s')
    ensures s.q.work.queue[0] in s.q.batches
    ensures QueueInv(s') && Known(s')
  {
    var id := s.q.work.queue[0];
    assert id in s.q.batches && s.retry == Free by {
      assert id in s.q.work.dirty && id in s.runs && BatchInv(s, id);
    }
    hide BatchInv;
    GotKeepsQueueInv(s, s');
  }

  lemma GotKeepsQueueInv(s: State, s': State)
    requires QueueInv(s) && Known(s) && s.retry == Free && s.q.work.queue != []
    requires s'.q.work == s.q.work.Get() && s'.retry == Running(s.q.work.queue[0])
    requires s'.q.batches == s.q.batches && s'.main == s.main && s'.succeeded == s.succeeded
    requires s'.givenUp == s.givenUp && s.runs.Keys + {s.q.work.queue[0]} == s'.runs.Keys
    ensures QueueInv(s') && Known(s')
  {
    var id := s.q.work.queue[0];
    assert s.q.work.queue == [id] + s.q.work.queue[1..];
  }

  lemma DoneKeepsQueueInv(s: State, s': State)
    requires QueueInv(s) && Known(s) && Next(s, RetryDone, s')
    ensures QueueInv(s') && Known(s')
  {
    var id := s.retry.id;
    if id in s.q.work.dirty {
      assert s'.q.work.queue == s.q.work.queue + [id];
      assert s'.q.work.queue[|s.q.work.queue|] == id;
      assert forall x :: x in s.q.work.queue ==> x in s'.q.work.queue;
    }
  }

  lemma QueueInvKept(s: State, step: Step, s': State)
    requires Inv(s) && Next(s, step, s')
    ensures QueueInv(s') && Known(s')
  {
    hide BatchInv;
    match step
    case NewBatch(_) =>
    case MainSettles(_) => SettleKeepsQueueInv(s, step, s');
    case RetrySettles(_) => SettleKeepsQueueInv(s, step, s');
    case DelayOver(id) => hide Next; DelayKeepsQueueInv(s, id, s');
    case RetryGets => hide Next; GetKeepsQueueInv(s, s');
    case RetryDone => hide Next; DoneKeepsQueueInv(s, s');
  }

  lemma SettleKeepsBatchInv(s: State, step: Step, s': State, id: BatchID)
    requires Known(s) && QueueInv(s) && Next(s, step, s') && (step.MainSettles? || step.RetrySettles?)
    requires id in s.runs && BatchInv(s, id)
    requires step.MainSettles? ==> s.main.id in s.runs && BatchInv(s, s.main.id)
    ensures BatchInv(s', id)
  {
    hide QueueInv;
  }

  lemma QueueStepKeepsBatchInv(s: State, step: Step, s': State, id: BatchID)
    requires Known(s) && QueueInv(s) && Next(s, step, s') && (step.DelayOver? || step.RetryDone? || step.RetryGets?)
    requires id in s.runs && BatchInv(s, id)
    requires step.RetryGets? ==> s.q.work.queue[0] in s.runs && BatchInv(s, s.q.work.queue[0])
    ensures BatchInv(s', id)
  {
    if step.RetryGets? { assert s.q.work.queue[0] in s.q.work.dirty; }
    hide QueueInv;
  }

  lemma BatchInvKept(s: State, step: Step, s': State, id: BatchID)
    requires Inv(s) && Next(s, step, s') && id in s'.runs
    ensures BatchInv(s', id)
  {
    if step.NewBatch? {
      if id in s.runs { assert BatchInv(s, id); }
    } else {
      hide BatchInv;
      SameRuns(s, step, s');
      if step.MainSettles? || step.RetrySettles? {
        SettleKeepsBatchInv(s, step, s', id);
      } else {
        QueueStepKeepsBatchInv(s, step, s', id);
      }
    }
  }

  lemma SameRuns(s: State, step: Step, s': State)
    requires Known(s) && QueueInv(s) && Next(s, step, s') && !step.NewBatch?
    ensures s'.runs.Keys == s.runs.Keys
    ensures step.RetryGets? ==> s.q.work.queue[0] in s.runs
  {
    hide BatchInv;
    if step.RetryGets? { assert s.q.work.queue[0] in s.q.work.dirty; }
  }

  ghost predicate IsRun(run: seq<State>, steps: seq<Step>) {
    && |run| == |steps| + 1 && Init(run[0])
    && forall i :: 0 <= i < |steps| ==> Next(run[i], steps[i], run[i + 1])
  }

  lemma {:induction false} RunKeepsInv(run: seq<State>, steps: seq<Step>, i: nat)
    requires IsRun(run, steps) && i < |run|
    ensures Inv(run[i])
  {
    hide Next, BatchInv, QueueInv, Known;
    if i == 0 {
      InitInv(run[0]);
    } else {
      RunKeepsInv(run, steps, i - 1);
      var s, step, s' := run[i - 1], steps[i - 1], run[i];
      assert Next(s, step, run[i - 1 + 1]);
      QueueInvKept(s, step, s');
      forall id | id in s'.runs ensures BatchInv(s', id) { BatchInvKept(s, step, s', id); }
    }
  }

  lemma InitInv(s: State)
    requires Init(s)
    ensures Inv(s)
  {}

  // In every interleaving a batch is processed at most MAX_RETRIES + 1 times, by one
  // goroutine at a time, and it is given up only after exactly that many failures.
  lemma RetryBound(run: seq<State>, steps: seq<Step>, i: nat, id: BatchID)
    requires IsRun(run, steps) && i < |run| && id in run[i].runs
    ensures run[i].runs[id] <= MAX_RETRIES + 1 == 4
    ensures id in run[i].givenUp ==> run[i].runs[id] == MAX_RETRIES + 1
    ensures !(run[i].main == Running(id) && run[i].retry == Running(id))
  {
    hide QueueInv, Known;
    RunKeepsInv(run, steps, i);
    assert BatchInv(run[i], id);
  }

  // Position p of the queue holds a, and a later one b.
  ghost predicate Ahead(queue: seq<BatchID>, a: BatchID, b: BatchID) {
    exists p, q :: 0 <= p < q < |queue| && queue[p] == a && queue[q] == b
  }

  // The batch at the head is the one that is tried next, and others queue up behind.
  lemma QueueMoves(s: State, step: Step, s': State)
    requires Inv(s) && Next(s, step, s')
    ensures step.RetryGets? ==>
      s.q.work.queue != [] && s'.q.work.queue == s.q.work.queue[1..] && s'.retry == Running(s.q.work.queue[0])
    ensures !step.RetryGets? ==> s.q.work.queue <= s'.q.work.queue
  {
    hide BatchInv, QueueInv, Known;
    if step.RetryGets? { GetKeepsQueueInv(s, s'); }
  }

  lemma StaysAhead(queue: seq<BatchID>, queue': seq<BatchID>, a: BatchID, b: BatchID)
    requires Ahead(queue, a, b)
    requires queue <= queue' || (queue[0] != a && queue' == queue[1..])
    ensures Ahead(queue', a, b)
  {
    var p, q :| 0 <= p < q < |queue| && queue[p] == a && queue[q] == b;
    if queue <= queue' {
      assert queue'[p] == a && queue'[q] == b;
    } else {
      assert queue'[p - 1] == a && queue'[q - 1] == b;
    }
  }

  // First in, first out: while one batch is queued ahead of another it stays there until it
  // has been tried.
  lemma {:induction false} FirstInFirstOut(run: seq<State>, steps: seq<Step>, i: nat, j: nat, a: BatchID, b: BatchID)
    requires IsRun(run, steps) && i <= j < |run| && Ahead(run[i].q.work.queue, a, b)
    ensures Ahead(run[j].q.work.queue, a, b)
            || exists m :: i <= m < j && steps[m].RetryGets? && run[m + 1].retry == Running(a)
    decreases j
  {
    hide Next, Inv, Ahead;
    if i < j {
      FirstInFirstOut(run, steps, i, j - 1, a, b);
      if Ahead(run[j - 1].q.work.queue, a, b) {
        var m := j - 1;
        RunKeepsInv(run, steps, m);
        assert Next(run[m], steps[m], run[m + 1]);
        QueueMoves(run[m], steps[m], run[m + 1]);
        if !(steps[m].RetryGets? && run[m].q.work.queue[0] == a) {
          StaysAhead(run[m].q.work.queue, run[m + 1].q.work.queue, a, b);
        }
      }
    }
  }

  // A batch that succeeded or was given up has left the map, counts no requeues, is queued
  // nowhere, and is never processed again.
  lemma {:induction false} FinishedIsCleanedUp(run: seq<State>, steps: seq<Step>, i: nat, j: nat, id: BatchID)
    requires IsRun(run, steps) && i <= j < |run| && id in run[i].runs && Finished(run[i], id)
    ensures id !in run[j].q.batches && run[j].q.work.NumRequeues(id) == 0 && !Queued(run[j], id)
    ensures Finished(run[j], id) && id in run[j].runs && run[j].runs[id] == run[i].runs[id]
    decreases j
  {
    hide QueueInv, Known, Next;
    if i < j {
      FinishedIsCleanedUp(run, steps, i, j - 1, id);
      RunKeepsInv(run, steps, j - 1);
      assert Next(run[j - 1], steps[j - 1], run[j - 1 + 1]);
      FinishedStays(run[j - 1], steps[j - 1], run[j], id);
    }
    RunKeepsInv(run, steps, j);
    assert BatchInv(run[j], id);
  }

  lemma FinishedStays(s: State, step: Step, s': State, id: BatchID)
    requires Inv(s) && Next(s, step, s') && id in s.runs && Finished(s, id)
    ensures Finished(s', id) && id in s'.runs && s'.runs[id] == s.runs[id]
  {
    assert BatchInv(s, id);
    hide BatchInv;
  }

  // What remains of a batch's retries goes down each time it is queued again.
  lemma RequeueDecreases(q: Queues, b: Batch)
    requires q.work.NumRequeues(b.id) <= MAX_RETRIES
    ensures var q' := q.Settle(b, true);
      if b.id in q'.work.waiting - q.work.waiting
      then 0 <= MAX_RETRIES - q'.work.NumRequeues(b.id) < MAX_RETRIES - q.work.NumRequeues(b.id)
      else b.id in q.work.waiting || (q'.work.NumRequeues(b.id) == 0 && b.id !in q'.batches)
  {}
}
