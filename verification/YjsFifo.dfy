/** Durable FIFO over every run of a room: what is queued, what is in the streams, and what was accepted. */
module YjsFifo {
  import opened Basics
  import opened Sequences
  import opened SaveQueue
  import opened TaskStreams
  import opened YjsRoom

  /** The positions of this replica's own deltas, in the order their appends took effect. */
  function OwnNos(log: seq<Entry>): seq<nat> {
    if log == [] then []
    else
      var p, e := OwnNos(log[..|log| - 1]), log[|log| - 1];
      if e.Own? then p + [e.item.no] else p
  }

  lemma OwnNosNext(log: seq<Entry>, e: Entry)
    ensures OwnNos(log + [e]) == if e.Own? then OwnNos(log) + [e.item.no] else OwnNos(log)
  {
    assert (log + [e])[..|log|] == log;
  }

  /** How many accepted deltas have reached the stream. */
  function Written(log: seq<Entry>): nat {
    var nos := OwnNos(log);
    if nos == [] then 0 else nos[|nos| - 1] + 1
  }

  ghost predicate Numbered(acc: seq<Item>) {
    forall i :: 0 <= i < |acc| ==> acc[i].no == i
  }

  /** The own entries are the first Written(log) accepted deltas in order, each repeated consecutively at least once. */
  ghost predicate IsLogOf(log: seq<Entry>, acc: seq<Item>) {
    && IsStutter(OwnNos(log), Written(log))
    && Written(log) <= |acc|
    && forall e :: e in log && e.Own? ==> e.item.no < |acc| && acc[e.item.no] == e.item
  }

  /** How many of the flusher's appends to the task are acknowledged but not committed yet. */
  function InFlight(f: Flusher, k: TaskKey): nat {
    match f
    case Appending(key, _, done) => if key == k then done else 0
    case Committing(key, done) => if key == k then done else 0
    case Waiting => 0
  }

  /**
   The queue is what was accepted from m on, and the stream has the first n accepted deltas, where n is m plus the
   acknowledged appends, or one more when an append took effect although it was reported as failed.
   */
  ghost predicate Fifo(acc: seq<Item>, items: seq<Item>, log: seq<Entry>, inFlight: nat) {
    && Numbered(acc)
    && inFlight <= |items| <= |acc|
    && items == acc[|acc| - |items|..]
    && IsLogOf(log, acc)
    && |acc| - |items| + inFlight <= Written(log) <= |acc| - |items| + inFlight + 1
  }

  ghost predicate Batched(s: Pipe) {
    match s.flusher
    case Appending(k, batch, done) => done <= |batch| && batch <= s.queue.Items(k)
    case Committing(k, done) => true
    case Waiting => true
  }

  ghost predicate KeyFifo(s: Pipe, k: TaskKey) {
    Fifo(At(s.accepted, k), s.queue.Items(k), At(s.log, k), InFlight(s.flusher, k))
  }

  ghost predicate Inv(s: Pipe) {
    && s.queue.WellFormed()
    && Batched(s)
    && forall k :: KeyFifo(s, k)
  }

  // What each kind of change does to one task.

  lemma FifoAccept(acc: seq<Item>, items: seq<Item>, log: seq<Entry>, inFlight: nat, item: Item)
    requires Fifo(acc, items, log, inFlight) && item.no == |acc|
    ensures Fifo(acc + [item], items + [item], log, inFlight)
  {
  }

  lemma FifoOther(acc: seq<Item>, items: seq<Item>, log: seq<Entry>, inFlight: nat, e: Entry)
    requires Fifo(acc, items, log, inFlight) && !e.Own?
    ensures Fifo(acc, items, log + [e], inFlight)
  {
    OwnNosNext(log, e);
    hide OwnNos;
  }

  /** The next append takes effect: the log now holds the delta at the boundary, perhaps once more than before. */
  lemma FifoAppend(acc: seq<Item>, items: seq<Item>, log: seq<Entry>, inFlight: nat)
    requires Fifo(acc, items, log, inFlight) && inFlight < |items|
    ensures var log' := log + [Own(items[inFlight])];
            Fifo(acc, items, log', inFlight) && Fifo(acc, items, log', inFlight + 1)
  {
    var p := |acc| - |items| + inFlight;
    assert items[inFlight] == acc[p];
    OwnNosNext(log, Own(items[inFlight]));
    StutterStep(OwnNos(log), Written(log), p);
    hide OwnNos, IsStutter;
  }

  lemma NextNo(acc: seq<Item>, items: seq<Item>, log: seq<Entry>, inFlight: nat)
    requires Fifo(acc, items, log, inFlight) && inFlight < |items|
    ensures Written(log) <= items[inFlight].no + 1
  {
    hide Written, IsLogOf;
    assert items[inFlight] == acc[|acc| - |items| + inFlight];
  }

  lemma InFlightIsQueued(acc: seq<Item>, items: seq<Item>, log: seq<Entry>, inFlight: nat)
    requires Fifo(acc, items, log, inFlight)
    ensures inFlight <= |items|
  {
  }

  lemma FifoCommit(acc: seq<Item>, items: seq<Item>, log: seq<Entry>, inFlight: nat)
    requires Fifo(acc, items, log, inFlight)
    ensures Fifo(acc, items[inFlight..], log, 0)
  {
    hide IsLogOf;
  }

  /** A step that touches at most one task is all right when that task is. */
  lemma InvAfter(s: Pipe, t: Pipe, key: TaskKey)
    requires Inv(s) && t.queue.WellFormed() && Batched(t)
    requires Fifo(At(t.accepted, key), t.queue.Items(key), At(t.log, key), InFlight(t.flusher, key))
    requires forall k :: k != key ==>
               && At(t.accepted, k) == At(s.accepted, k) && t.queue.Items(k) == s.queue.Items(k)
               && At(t.log, k) == At(s.log, k) && InFlight(t.flusher, k) == InFlight(s.flusher, k)
    ensures Inv(t)
  {
    hide Fifo, Queue.WellFormed, Batched, At, InFlight, Queue.Items;
    forall k ensures KeyFifo(t, k) {
      assert KeyFifo(s, k);
    }
  }

  lemma KeyFacts(s: Pipe, k: TaskKey)
    requires Inv(s)
    ensures Fifo(At(s.accepted, k), s.queue.Items(k), At(s.log, k), InFlight(s.flusher, k))
    ensures s.queue.WellFormed() && Batched(s)
  {
    assert KeyFifo(s, k);
  }

  lemma AcceptKeeps(s: Pipe, key: TaskKey, item: Item)
    requires Inv(s) && !s.queue.Full() && item.no == |At(s.accepted, key)|
    ensures Inv(s.Accept(key, item))
  {
    hide Inv, Fifo, Queue.WellFormed, Queue.Enqueue;
    KeyFacts(s, key);
    EnqueueKeeps(s.queue, key, item);
    FifoAccept(At(s.accepted, key), s.queue.Items(key), At(s.log, key), InFlight(s.flusher, key), item);
    InvAfter(s, s.Accept(key, item), key);
  }

  lemma TakeBatchKeeps(s: Pipe, key: TaskKey, batchSize: nat)
    requires Inv(s)
    ensures Inv(s.TakeBatch(key, batchSize))
  {
    hide Inv, Fifo, Queue.WellFormed;
    KeyFacts(s, key);
    InvAfter(s, s.TakeBatch(key, batchSize), key);
  }

  lemma OtherAppendKeeps(s: Pipe, key: TaskKey, d: Delta)
    requires Inv(s)
    ensures Inv(s.AppendTo(key, Other(d)))
  {
    hide Inv, Fifo, Queue.WellFormed;
    KeyFacts(s, key);
    FifoOther(At(s.accepted, key), s.queue.Items(key), At(s.log, key), InFlight(s.flusher, key), Other(d));
    InvAfter(s, s.AppendTo(key, Other(d)), key);
  }

  /** The append takes effect: the state is as good as before, and as good as with one more delta acknowledged. */
  lemma OwnAppendKeeps(s: Pipe, key: TaskKey, done: nat)
    requires Inv(s) && InFlight(s.flusher, key) == done < |s.queue.Items(key)|
    ensures var t := s.AppendTo(key, Own(s.queue.Items(key)[done]));
            Inv(t) && Fifo(At(t.accepted, key), t.queue.Items(key), At(t.log, key), done + 1)
  {
    hide Inv, Fifo, Queue.WellFormed, InFlight, Queue.Items;
    KeyFacts(s, key);
    FifoAppend(At(s.accepted, key), s.queue.Items(key), At(s.log, key), done);
    InvAfter(s, s.AppendTo(key, Own(s.queue.Items(key)[done])), key);
  }

  lemma AppendOneKeeps(s: Pipe, reply: Reply)
    requires Inv(s)
    ensures Inv(s.AppendOne(reply))
  {
    hide Inv, Fifo, Queue.WellFormed, Queue.Items, Pipe.AppendTo;
    if s.flusher.Appending? {
      var key, batch, done := s.flusher.key, s.flusher.batch, s.flusher.done;
      KeyFacts(s, key);
      if done >= |batch| || reply == Refused {
        InvAfter(s, s.(flusher := Committing(key, done)), key);
      } else {
        assert batch[done] == s.queue.Items(key)[done];
        OwnAppendKeeps(s, key, done);
        var t := s.AppendTo(key, Own(batch[done]));
        AppendOnlyLogs(s, key, Own(batch[done]));
        KeyFacts(t, key);
        InvAfter(t, t.(flusher := if reply == Acked then Appending(key, batch, done + 1) else Committing(key, done)), key);
      }
    }
  }

  lemma AppendOnlyLogs(s: Pipe, key: TaskKey, e: Entry)
    ensures var t := s.AppendTo(key, e); t.queue == s.queue && t.flusher == s.flusher && t.accepted == s.accepted
  {
  }

  lemma CommitStepKeeps(s: Pipe)
    requires Inv(s)
    ensures Inv(s.Commit())
  {
    hide Inv, Fifo, Queue.WellFormed, Queue.CommitBatch;
    if s.flusher.Committing? {
      var key, done := s.flusher.key, s.flusher.done;
      KeyFacts(s, key);
      CommitKeeps(s.queue, key, done);
      InFlightIsQueued(At(s.accepted, key), s.queue.Items(key), At(s.log, key), done);
      FifoCommit(At(s.accepted, key), s.queue.Items(key), At(s.log, key), done);
      InvAfter(s, s.Commit(), key);
    }
  }

  lemma NextKeeps(s: State, step: Step)
    requires Inv(s.pipe)
    ensures Inv(Next(s, step).pipe)
  {
    hide Inv, Pipe.Accept, Pipe.AppendTo, Pipe.TakeBatch, Pipe.AppendOne, Pipe.Commit;
    match step
    case Update(author, k, d) =>
      if !s.pipe.queue.Full() {
        AcceptKeeps(s.pipe, k, Item(|At(s.pipe.accepted, k)|, author, d));
      }
    case TakeBatch(k) => TakeBatchKeeps(s.pipe, k, s.batchSize);
    case AppendOne(reply) => AppendOneKeeps(s.pipe, reply);
    case Commit => CommitStepKeeps(s.pipe);
    case OtherAppend(k, d) => OtherAppendKeeps(s.pipe, k, d);
    case Seed(k, d) => OtherAppendKeeps(s.pipe, k, d);
    case CompactAppend(k, d) => OtherAppendKeeps(s.pipe, k, d);
    case _ =>
  }

  lemma {:induction false} OwnNosOfOthers(log: seq<Entry>)
    requires forall e :: e in log ==> !e.Own?
    ensures OwnNos(log) == []
    decreases |log|
  {
    if log != [] {
      OwnNosOfOthers(log[..|log| - 1]);
      assert log[|log| - 1] in log;
    }
  }

  /**
   In every reachable state, for every task: the queue is accepted[m..], this replica's stream entries are
   accepted[..n] in order with each item repeated consecutively at least once, and m <= n; the counter is the sum of
   the list lengths and never exceeds the limit.
   */
  lemma {:induction false} DurableFifo(maxSize: nat, batchSize: nat, history: map<TaskKey, seq<Delta>>, steps: seq<Step>)
    ensures Inv(Exec(Fresh(maxSize, batchSize, history), steps).pipe)
    decreases |steps|
  {
    if steps == [] {
      var s := Fresh(maxSize, batchSize, history).pipe;
      forall k ensures KeyFifo(s, k) {
        OwnNosOfOthers(At(s.log, k));
      }
    } else {
      hide Inv, Next;
      DurableFifo(maxSize, batchSize, history, steps[..|steps| - 1]);
      NextKeeps(Exec(Fresh(maxSize, batchSize, history), steps[..|steps| - 1]), steps[|steps| - 1]);
    }
  }

  /** An accepted delta that has left the queue is in the stream. */
  lemma AcceptedIsKept(s: Pipe, k: TaskKey, i: nat)
    requires Inv(s) && i < |At(s.accepted, k)|
    ensures At(s.accepted, k)[i] in s.queue.Items(k) || Own(At(s.accepted, k)[i]) in At(s.log, k)
  {
    var acc, items, log := At(s.accepted, k), s.queue.Items(k), At(s.log, k);
    assert KeyFifo(s, k);
    hide Inv, Queue.WellFormed, Written;
    var m := |acc| - |items|;
    if i < m {
      WrittenIsIn(log, acc, i);
    } else {
      assert items[i - m] == acc[i];
    }
  }

  lemma WrittenIsIn(log: seq<Entry>, acc: seq<Item>, i: nat)
    requires IsLogOf(log, acc) && Numbered(acc) && i < Written(log)
    ensures Own(acc[i]) in log
  {
    StutterCovers(OwnNos(log), Written(log));
    OwnNosMember(log, i);
  }

  lemma {:induction false} OwnNosMember(log: seq<Entry>, i: nat)
    requires i in OwnNos(log)
    ensures exists e :: e in log && e.Own? && e.item.no == i
    decreases |log|
  {
    if log != [] {
      var p, e := log[..|log| - 1], log[|log| - 1];
      assert e in log;
      if !(e.Own? && e.item.no == i) {
        OwnNosMember(p, i);
        var x :| x in p && x.Own? && x.item.no == i;
        assert x in log;
      }
    }
  }
}
