/** The save queue as the room runs it: accepts deltas, hands out copies, flushes batches, drains on shutdown. */
module YjsSaveQueue {
  import opened SaveQueue
  import opened TaskStreams

  /** One task of a pass: append up to a batch, then remove from the queue what was acknowledged. */
  function FlushTask(q: Queue<Delta>, st: Streams, k: TaskKey, batchSize: nat): (Queue<Delta>, Streams) {
    var (t, n) := st.AppendAll(k, q.Batch(k, batchSize));
    (q.CommitBatch(k, n), t)
  }

  function FlushAll(q: Queue<Delta>, st: Streams, keys: seq<TaskKey>, batchSize: nat): (Queue<Delta>, Streams) {
    if keys == [] then (q, st)
    else
      var (q1, st1) := FlushAll(q, st, keys[..|keys| - 1], batchSize);
      FlushTask(q1, st1, keys[|keys| - 1], batchSize)
  }

  lemma FlushAllNext(q: Queue<Delta>, st: Streams, keys: seq<TaskKey>, i: nat, batchSize: nat)
    requires i < |keys|
    ensures var (q1, st1) := FlushAll(q, st, keys[..i], batchSize);
            var (t, n) := st1.AppendAll(keys[i], q1.Batch(keys[i], batchSize));
            FlushAll(q, st, keys[..i + 1], batchSize) == (q1.CommitBatch(keys[i], n), t)
  {
    hide Streams.AppendAll, Queue.Batch, Queue.CommitBatch;
    assert keys[..i + 1][..i] == keys[..i];
  }

  ghost function Accepted(accepted: map<TaskKey, seq<Delta>>, k: TaskKey): seq<Delta> {
    if k in accepted then accepted[k] else []
  }

  /**
   Of one task: the queue is a suffix of what was accepted, and since st0 the stream has grown by the prefix before
   it, each recordable delta at least once and in order; only the delta at the boundary may be in both.
   */
  ghost predicate KeyDurable(st0: Streams, accepted: seq<Delta>, q: Queue<Delta>, st: Streams, k: TaskKey) {
    && st.enabled == st0.enabled
    && exists w :: st.Entries(k) == st0.Entries(k) + w && Kept(st0.enabled, k, accepted, q.Items(k), w)
  }

  ghost predicate Durable(st0: Streams, accepted: map<TaskKey, seq<Delta>>, q: Queue<Delta>, st: Streams) {
    forall k :: KeyDurable(st0, Accepted(accepted, k), q, st, k)
  }

  lemma KeyUntouched(st0: Streams, accepted: seq<Delta>, q: Queue<Delta>, st: Streams, q': Queue<Delta>, st': Streams, k: TaskKey)
    requires KeyDurable(st0, accepted, q, st, k)
    requires q'.Items(k) == q.Items(k) && st'.Entries(k) == st.Entries(k) && st'.enabled == st.enabled
    ensures KeyDurable(st0, accepted, q', st', k)
  {
    hide Kept;
  }

  lemma KeyEnqueued(st0: Streams, accepted: seq<Delta>, q: Queue<Delta>, st: Streams, q': Queue<Delta>, k: TaskKey, d: Delta)
    requires KeyDurable(st0, accepted, q, st, k) && q'.Items(k) == q.Items(k) + [d]
    ensures KeyDurable(st0, accepted + [d], q', st, k)
  {
    hide Kept;
    var w :| st.Entries(k) == st0.Entries(k) + w && Kept(st0.enabled, k, accepted, q.Items(k), w);
    KeptEnqueue(st0.enabled, k, accepted, q.Items(k), w, d);
  }

  lemma EnqueueDurable(st0: Streams, accepted: map<TaskKey, seq<Delta>>, q: Queue<Delta>, st: Streams, key: TaskKey, d: Delta)
    requires Durable(st0, accepted, q, st) && q.WellFormed() && !q.Full()
    ensures Durable(st0, accepted[key := Accepted(accepted, key) + [d]], q.Enqueue(key, d), st)
  {
    EnqueueKeeps(q, key, d);
    var q', accepted' := q.Enqueue(key, d), accepted[key := Accepted(accepted, key) + [d]];
    hide KeyDurable, Queue.WellFormed, Queue.Enqueue;
    KeyEnqueued(st0, Accepted(accepted, key), q, st, q', key, d);
    forall k | k != key ensures KeyDurable(st0, Accepted(accepted', k), q', st, k) {
      KeyUntouched(st0, Accepted(accepted, k), q, st, q', st, k);
    }
  }

  lemma KeyFlushed(st0: Streams, accepted: seq<Delta>, q: Queue<Delta>, st: Streams, k: TaskKey, batchSize: nat)
    requires KeyDurable(st0, accepted, q, st, k) && q.WellFormed()
    ensures var (q', st') := FlushTask(q, st, k, batchSize);
            && KeyDurable(st0, accepted, q', st', k)
            && st'.enabled == st.enabled
            && forall j :: j != k ==> st'.Entries(j) == st.Entries(j)
  {
    hide Kept, Logged, Streams.AppendAll, Queue.WellFormed;
    var items, batch := q.Items(k), q.Batch(k, batchSize);
    var was :| st.Entries(k) == st0.Entries(k) + was && Kept(st0.enabled, k, accepted, items, was);
    var m := KeptSplit(st0.enabled, k, accepted, items, was, |batch|);
    var w := AppendAllKeeps(st, k, batch, accepted, m, was);
    var (st', n) := st.AppendAll(k, batch);
    CommitKeeps(q, k, n);
    KeptCommit(st0.enabled, k, accepted, items, was + w, n);
    assert st0.Entries(k) + was + w == st0.Entries(k) + (was + w);
  }

  /** Flushing one task keeps the account of every task, whatever each append does. */
  lemma FlushTaskDurable(st0: Streams, accepted: map<TaskKey, seq<Delta>>, q: Queue<Delta>, st: Streams, key: TaskKey, batchSize: nat)
    requires Durable(st0, accepted, q, st) && q.WellFormed()
    ensures var (q', st') := FlushTask(q, st, key, batchSize);
            && Durable(st0, accepted, q', st')
            && q'.WellFormed() && q'.maxSize == q.maxSize && q'.totalPending <= q.totalPending
  {
    var (q', st') := FlushTask(q, st, key, batchSize);
    CommitKeeps(q, key, st.AppendAll(key, q.Batch(key, batchSize)).1);
    KeyFlushed(st0, Accepted(accepted, key), q, st, key, batchSize);
    hide KeyDurable, FlushTask, Queue.WellFormed;
    forall k | k != key ensures KeyDurable(st0, Accepted(accepted, k), q', st', k) {
      KeyUntouched(st0, Accepted(accepted, k), q, st, q', st', k);
    }
  }

  lemma {:induction false} FlushAllDurable(st0: Streams, accepted: map<TaskKey, seq<Delta>>, q: Queue<Delta>, st: Streams,
                                           keys: seq<TaskKey>, batchSize: nat)
    requires Durable(st0, accepted, q, st) && q.WellFormed()
    ensures var (q', st') := FlushAll(q, st, keys, batchSize);
            && Durable(st0, accepted, q', st')
            && q'.WellFormed() && q'.maxSize == q.maxSize && q'.totalPending <= q.totalPending
  {
    if keys != [] {
      hide Durable, FlushTask, Queue.WellFormed;
      FlushAllDurable(st0, accepted, q, st, keys[..|keys| - 1], batchSize);
      var (q1, st1) := FlushAll(q, st, keys[..|keys| - 1], batchSize);
      FlushTaskDurable(st0, accepted, q1, st1, keys[|keys| - 1], batchSize);
    }
  }

  function Min(a: nat, b: nat): nat {
    if a <= b then a else b
  }

  /** The first n waiting deltas of the task have moved from the queue to the end of its stream, in order. */
  ghost predicate Moved(q: Queue<Delta>, st: Streams, q': Queue<Delta>, st': Streams, k: TaskKey, n: nat) {
    && n <= |q.Items(k)|
    && q'.Items(k) == q.Items(k)[n..]
    && st'.Entries(k) == st.Entries(k) + Recorded(st.enabled, k, q.Items(k)[..n])
  }

  lemma FlushTaskHealthy(q: Queue<Delta>, st: Streams, key: TaskKey, batchSize: nat)
    requires q.WellFormed() && st.replies == []
    ensures var (q', st') := FlushTask(q, st, key, batchSize);
            && st'.replies == [] && st'.enabled == st.enabled
            && Moved(q, st, q', st', key, Min(|q.Items(key)|, batchSize))
            && q'.totalPending == q.totalPending - Min(|q.Items(key)|, batchSize)
            && forall k :: k != key ==> q'.Items(k) == q.Items(k) && st'.Entries(k) == st.Entries(k)
  {
    var batch := q.Batch(key, batchSize);
    assert Logged(st.enabled, key, batch, 0, []) by {
      RecordedNothing(st.enabled, key, batch);
      assert IsRepetition([], [], []);
    }
    hide Logged, Recorded;
    var w := AppendAllKeeps(st, key, batch, batch, 0, []);
    var n := Min(|q.Items(key)|, batchSize);
    assert batch == q.Items(key)[..n] && |batch| == n;
    CommitKeeps(q, key, n);
    hide Streams.AppendAll, Queue.WellFormed, Queue.CommitBatch, Queue.Items, Streams.Entries;
  }

  /** A pass over distinct tasks with a healthy store moves exactly the first batch of each of them. */
  lemma {:induction false} FlushAllHealthy(q: Queue<Delta>, st: Streams, keys: seq<TaskKey>, batchSize: nat)
    requires q.WellFormed() && st.replies == []
    requires forall i, j :: 0 <= i < j < |keys| ==> keys[i] != keys[j]
    ensures var (q', st') := FlushAll(q, st, keys, batchSize);
            && q'.WellFormed() && st'.replies == [] && st'.enabled == st.enabled
            && (forall k :: k in keys ==> Moved(q, st, q', st', k, Min(|q.Items(k)|, batchSize)))
            && (forall k :: k !in keys ==> q'.Items(k) == q.Items(k) && st'.Entries(k) == st.Entries(k))
            && q'.totalPending <= q.totalPending
            && (keys != [] && batchSize > 0 && q.Items(keys[0]) != [] ==> q'.totalPending < q.totalPending)
    decreases |keys|
  {
    if keys != [] {
      var most, last := keys[..|keys| - 1], keys[|keys| - 1];
      assert keys == most + [last] && last !in most;
      FlushAllHealthy(q, st, most, batchSize);
      var (q1, st1) := FlushAll(q, st, most, batchSize);
      FlushTaskHealthy(q1, st1, last, batchSize);
      FlushTaskKeeps(q1, st1, last, batchSize);
      var (q2, st2) := FlushTask(q1, st1, last, batchSize);
      hide FlushTask, Recorded, FlushAll, Queue.WellFormed;
      MovedLater(q, st, q1, st1, q2, st2, last, Min(|q.Items(last)|, batchSize));
      forall k | k in most ensures Moved(q, st, q2, st2, k, Min(|q.Items(k)|, batchSize)) {
        MovedEarlier(q, st, q1, st1, q2, st2, k, Min(|q.Items(k)|, batchSize));
      }
    }
  }

  lemma MovedLater(q: Queue<Delta>, st: Streams, q1: Queue<Delta>, st1: Streams, q2: Queue<Delta>, st2: Streams, k: TaskKey, n: nat)
    requires q1.Items(k) == q.Items(k) && st1.Entries(k) == st.Entries(k) && st1.enabled == st.enabled
    requires Moved(q1, st1, q2, st2, k, n)
    ensures Moved(q, st, q2, st2, k, n)
  {
    hide Recorded;
  }

  lemma MovedEarlier(q: Queue<Delta>, st: Streams, q1: Queue<Delta>, st1: Streams, q2: Queue<Delta>, st2: Streams, k: TaskKey, n: nat)
    requires Moved(q, st, q1, st1, k, n)
    requires q2.Items(k) == q1.Items(k) && st2.Entries(k) == st1.Entries(k)
    ensures Moved(q, st, q2, st2, k, n)
  {
    hide Recorded;
  }

  lemma FlushTaskKeeps(q: Queue<Delta>, st: Streams, key: TaskKey, batchSize: nat)
    requires q.WellFormed()
    ensures var q' := FlushTask(q, st, key, batchSize).0; q'.WellFormed() && q'.totalPending <= q.totalPending
  {
    CommitKeeps(q, key, st.AppendAll(key, q.Batch(key, batchSize)).1);
  }

  class YjsSaveQueue {
    var pending: map<TaskKey, seq<Delta>>
    var totalPending: int
    const maxSize: nat
    const batchSize: nat
    const store: YjsDocStore

    /** The streams when the queue was created, and every delta accepted since, by task. */
    ghost const st0: Streams
    ghost var accepted: map<TaskKey, seq<Delta>>

    constructor (store: YjsDocStore)
      ensures Valid() && View() == Queue(map[], 0, MAX_SAVE_QUEUE_SIZE)
      ensures this.store == store && batchSize == MAX_BATCH_SIZE && accepted == map[] && st0 == store.View()
    {
      pending, totalPending, maxSize, batchSize := map[], 0, MAX_SAVE_QUEUE_SIZE, MAX_BATCH_SIZE;
      this.store := store;
      accepted, st0 := map[], store.View();
      new;
      forall k ensures KeyDurable(st0, [], View(), store.View(), k) {
        KeptInitially(st0.enabled, k);
        assert st0.Entries(k) == st0.Entries(k) + [];
      }
    }

    function View(): Queue<Delta>
      reads this
    {
      Queue(pending, totalPending, maxSize)
    }

    function Both(): (Queue<Delta>, Streams)
      reads this, store
    {
      (View(), store.View())
    }

    ghost predicate Valid()
      reads this, store
    {
      && View().WellFormed()
      && batchSize > 0
      && Durable(st0, accepted, View(), store.View())
    }

    method Enqueue(taskKey: TaskKey, data: Delta) returns (ok: bool)
      requires Valid()
      modifies this`pending, this`totalPending, this`accepted
      ensures Valid()
      ensures ok <==> old(totalPending) < maxSize
      ensures View() == old(View()).Enqueue(taskKey, data)
      ensures accepted == if ok then old(accepted)[taskKey := Accepted(old(accepted), taskKey) + [data]] else old(accepted)
    {
      if totalPending >= maxSize {
        return false;
      }
      EnqueueKeeps(View(), taskKey, data);
      EnqueueDurable(st0, accepted, View(), store.View(), taskKey, data);
      hide Durable, Queue.WellFormed;
      pending := pending[taskKey := (if taskKey in pending then pending[taskKey] else []) + [data]];
      totalPending := totalPending + 1;
      accepted := accepted[taskKey := Accepted(accepted, taskKey) + [data]];
      ok := true;
    }

    /** A copy of the waiting deltas of one task; the queue is left as it was. */
    method GetPending(taskKey: TaskKey) returns (data: seq<Delta>)
      ensures data == View().Items(taskKey)
    {
      if taskKey !in pending || |pending[taskKey]| == 0 {
        return [];
      }
      var items := pending[taskKey];
      data := [];
      for i := 0 to |items|
        invariant data == items[..i]
      {
        data := data + [items[i]];
      }
    }

    method CommitBatch(taskKey: TaskKey, count: int)
      modifies this`pending, this`totalPending
      ensures View() == old(View()).CommitBatch(taskKey, count)
    {
      if taskKey !in pending || |pending[taskKey]| == 0 || count <= 0 {
        return;
      }
      var items := pending[taskKey];
      if count >= |items| {
        pending, totalPending := pending - {taskKey}, totalPending - |items|;
      } else {
        pending, totalPending := pending[taskKey := items[count..]], totalPending - count;
      }
    }

    /** The tasks with something to flush, each once, in whatever order the map yields them. */
    method PendingKeys() returns (keys: seq<TaskKey>)
      requires View().WellFormed()
      ensures forall k :: k in keys <==> View().Items(k) != []
      ensures forall i, j :: 0 <= i < j < |keys| ==> keys[i] != keys[j]
    {
      keys := [];
      var rest := pending.Keys;
      while rest != {}
        invariant rest <= pending.Keys
        invariant forall k :: k in keys ==> k in pending && k !in rest
        invariant forall k :: k in pending && k !in rest ==> k in keys
        invariant forall i, j :: 0 <= i < j < |keys| ==> keys[i] != keys[j]
        decreases rest
      {
        var k :| k in rest;
        keys, rest := keys + [k], rest - {k};
      }
    }

    method GetBatch(taskKey: TaskKey) returns (batch: seq<Delta>)
      ensures batch == View().Batch(taskKey, batchSize)
    {
      var items := if taskKey in pending then pending[taskKey] else [];
      var n := if |items| < batchSize then |items| else batchSize;
      batch := items[..n];
    }

    /** The loop over one batch: it stops at the first append reported as failed. */
    method AppendBatch(taskKey: TaskKey, batch: seq<Delta>) returns (committed: nat)
      modifies store
      ensures (store.View(), committed) == old(store.View()).AppendAll(taskKey, batch)
    {
      committed := 0;
      var failed := false;
      while committed < |batch| && !failed
        invariant committed <= |batch|
        invariant var (t, n) := store.View().AppendAll(taskKey, batch[committed..]);
                  old(store.View()).AppendAll(taskKey, batch)
                  == if failed then (store.View(), committed) else (t, committed + n)
        decreases |batch| - committed, !failed
      {
        assert batch[committed..][1..] == batch[committed + 1..];
        var ok := store.AppendTaskUpdate(taskKey, batch[committed]);
        if ok {
          committed := committed + 1;
        } else {
          failed := true;
        }
      }
    }

    /**
     One pass over the tasks that had something waiting. Whatever the store does nothing accepted is lost, and with
     a store that acknowledges everything each task loses exactly its first batch to its stream, in order.
     */
    method FlushSync()
      requires Valid()
      modifies this`pending, this`totalPending, store
      ensures Valid() && totalPending <= old(totalPending)
      ensures old(store.replies) == [] ==> store.replies == []
      ensures old(store.replies) == [] ==>
                forall k :: Moved(old(View()), old(store.View()), View(), store.View(), k,
                                  Min(|old(View()).Items(k)|, batchSize))
      ensures old(store.replies) == [] && old(totalPending) > 0 ==> totalPending < old(totalPending)
    {
      var keys := PendingKeys();
      ghost var q, st := View(), store.View();
      PassKeeps(st0, accepted, q, st, keys, batchSize);
      assert FlushAll(q, st, keys[..0], batchSize) == (q, st);
      hide Durable, Moved, FlushAll, Streams.AppendAll, Queue.WellFormed, Queue.Batch, Queue.CommitBatch, Queue.Items;
      for i := 0 to |keys|
        invariant Both() == FlushAll(q, st, keys[..i], batchSize)
      {
        FlushAllNext(q, st, keys, i, batchSize);
        var batch := GetBatch(keys[i]);
        var committed := AppendBatch(keys[i], batch);
        CommitBatch(keys[i], committed);
      }
      assert keys[..|keys|] == keys;
    }

    /**
     The shutdown drain with no concurrent Enqueue. passes is how many flushes fit before the three-second deadline, used how many there were.
     It always stops, because every repeated pass has removed something; with a healthy store and enough passes it
     leaves the queue empty and every stream extended by all that was waiting, in order.
     */
    method FinalFlush(passes: nat) returns (used: nat)
      requires Valid()
      modifies this`pending, this`totalPending, store
      ensures Valid() && totalPending <= old(totalPending)
      ensures used <= passes && (old(totalPending) == 0 ==> used == 0)
      ensures old(store.replies) == [] && passes >= old(totalPending) ==>
                && pending == map[] && totalPending == 0
                && forall k :: store.View().Entries(k)
                               == old(store.View()).Entries(k)
                                  + Recorded(store.enabled, k, old(View()).Items(k))
    {
      ghost var q, st, healthy := View(), store.View(), store.replies == [];
      var left := passes;
      used := 0;
      EmptyWhenZero(q);
      NothingMoved(q, st);
      while totalPending > 0 && left > 0
        invariant Valid() && 0 <= totalPending <= q.totalPending
        invariant used + left == passes && (q.totalPending == 0 ==> used == 0)
        invariant healthy ==> store.replies == [] && Drained(q, st, View(), store.View())
        invariant healthy ==> totalPending + passes <= q.totalPending + left
        decreases totalPending
      {
        var before := totalPending;
        ghost var q1, st1 := View(), store.View();
        FlushSync();
        used := used + 1;
        if healthy {
          DrainedFurther(q, st, q1, st1, View(), store.View(), batchSize);
        }
        EmptyWhenZero(View());
        left := left - 1;
        if totalPending >= before {
          break;
        }
      }
      EmptyWhenZero(View());
      if healthy && passes >= q.totalPending {
        assert totalPending == 0;
        AllDrained(q, st, View(), store.View());
      }
    }
  }

  /** What a pass over the tasks that have something waiting keeps, and what it does with a healthy store. */
  lemma PassKeeps(st0: Streams, accepted: map<TaskKey, seq<Delta>>, q: Queue<Delta>, st: Streams, keys: seq<TaskKey>, batchSize: nat)
    requires q.WellFormed() && Durable(st0, accepted, q, st) && batchSize > 0
    requires forall k :: k in keys <==> q.Items(k) != []
    requires forall i, j :: 0 <= i < j < |keys| ==> keys[i] != keys[j]
    ensures var (q', st') := FlushAll(q, st, keys, batchSize);
            && q'.WellFormed() && Durable(st0, accepted, q', st') && q'.totalPending <= q.totalPending
            && (st.replies == [] ==>
                  && st'.replies == []
                  && (forall k :: Moved(q, st, q', st', k, Min(|q.Items(k)|, batchSize)))
                  && (q.totalPending > 0 ==> q'.totalPending < q.totalPending))
  {
    hide Durable, Moved, FlushAll;
    FlushAllDurable(st0, accepted, q, st, keys, batchSize);
    if st.replies == [] {
      FlushAllHealthy(q, st, keys, batchSize);
      PassMovesAll(q, st, keys, batchSize);
    }
  }

  lemma PassMovesAll(q: Queue<Delta>, st: Streams, keys: seq<TaskKey>, batchSize: nat)
    requires q.WellFormed() && st.replies == [] && batchSize > 0
    requires forall k :: k in keys <==> q.Items(k) != []
    requires forall i, j :: 0 <= i < j < |keys| ==> keys[i] != keys[j]
    ensures var (q', st') := FlushAll(q, st, keys, batchSize);
            && (forall k :: Moved(q, st, q', st', k, Min(|q.Items(k)|, batchSize)))
            && (q.totalPending > 0 ==> q'.totalPending < q.totalPending)
  {
    FlushAllHealthy(q, st, keys, batchSize);
    var (q', st') := FlushAll(q, st, keys, batchSize);
    hide FlushAll;
    forall k ensures Moved(q, st, q', st', k, Min(|q.Items(k)|, batchSize)) {
      if k !in keys {
        RecordedNothing(st.enabled, k, q.Items(k));
      }
    }
    if q.totalPending > 0 {
      EmptyWhenZero(q);
      var k :| k in q.pending;
      assert k in keys && keys[0] in keys;
    }
  }

  /** Some prefix of each list has moved to its stream, and the rest is still queued. */
  ghost predicate Drained(q: Queue<Delta>, st: Streams, q': Queue<Delta>, st': Streams) {
    && st'.enabled == st.enabled
    && forall k :: |q'.Items(k)| <= |q.Items(k)| && Moved(q, st, q', st', k, |q.Items(k)| - |q'.Items(k)|)
  }

  lemma NothingMoved(q: Queue<Delta>, st: Streams)
    ensures Drained(q, st, q, st)
  {
    forall k ensures Moved(q, st, q, st, k, 0) {
      RecordedNothing(st.enabled, k, q.Items(k));
    }
  }

  lemma DrainedFurther(q: Queue<Delta>, st: Streams, q1: Queue<Delta>, st1: Streams, q2: Queue<Delta>, st2: Streams, batchSize: nat)
    requires Drained(q, st, q1, st1) && st2.enabled == st.enabled
    requires forall k :: Moved(q1, st1, q2, st2, k, Min(|q1.Items(k)|, batchSize))
    ensures Drained(q, st, q2, st2)
  {
    hide Moved;
    forall k ensures |q2.Items(k)| <= |q.Items(k)| && Moved(q, st, q2, st2, k, |q.Items(k)| - |q2.Items(k)|) {
      MovedTwice(q, st, q1, st1, q2, st2, k, |q.Items(k)| - |q1.Items(k)|, Min(|q1.Items(k)|, batchSize));
    }
  }

  lemma MovedTwice(q: Queue<Delta>, st: Streams, q1: Queue<Delta>, st1: Streams, q2: Queue<Delta>, st2: Streams,
                   k: TaskKey, n: nat, t: nat)
    requires Moved(q, st, q1, st1, k, n) && st1.enabled == st.enabled && Moved(q1, st1, q2, st2, k, t)
    ensures |q2.Items(k)| == |q.Items(k)| - n - t && Moved(q, st, q2, st2, k, n + t)
  {
    hide Recorded, Queue.Items, Streams.Entries;
    var items := q.Items(k);
    RecordedConcat(st.enabled, k, items[..n], q1.Items(k)[..t]);
    assert items[n..][t..] == items[n + t..] && items[..n + t] == items[..n] + items[n..][..t];
    var (a, b) := (Recorded(st.enabled, k, items[..n]), Recorded(st.enabled, k, q1.Items(k)[..t]));
    assert (st.Entries(k) + a) + b == st.Entries(k) + (a + b);
  }

  lemma AllDrained(q: Queue<Delta>, st: Streams, q': Queue<Delta>, st': Streams)
    requires Drained(q, st, q', st') && q'.pending == map[]
    ensures forall k :: st'.Entries(k) == st.Entries(k) + Recorded(st.enabled, k, q.Items(k))
  {
    forall k ensures st'.Entries(k) == st.Entries(k) + Recorded(st.enabled, k, q.Items(k)) {
      assert Moved(q, st, q', st', k, |q.Items(k)| - |q'.Items(k)|);
      assert q.Items(k)[..|q.Items(k)|] == q.Items(k);
    }
  }

  /** Of a task kept durable, stream growth and queue together hold each accepted delta that an XADD records. */
  lemma AcceptedIsKept(st0: Streams, accepted: seq<Delta>, q: Queue<Delta>, st: Streams, k: TaskKey, d: Delta)
    requires KeyDurable(st0, accepted, q, st, k) && d in accepted && Storable(st0.enabled, k, d)
    ensures d in q.Items(k) || d in st.Entries(k)
  {
    var w :| st.Entries(k) == st0.Entries(k) + w && Kept(st0.enabled, k, accepted, q.Items(k), w);
    KeptLosesNothing(st0.enabled, k, accepted, q.Items(k), w);
  }

  function Count(items: seq<Delta>, d: Delta): nat {
    multiset(items)[d]
  }

  /**
   Storable is exactly what the guarantee needs. Flushing any queue to a healthy store takes the copies of a delta that
   are in the batch out of the queue, and the queue and the stream together hold as many copies as before if and only if
   the delta is storable or was not in the batch: the other appends are acknowledged without an XADD.
   */
  lemma DeltaSurvivesFlushIffStorable(q: Queue<Delta>, st: Streams, k: TaskKey, d: Delta, batchSize: nat)
    requires q.WellFormed() && st.replies == []
    ensures var (q', st') := FlushTask(q, st, k, batchSize);
            && Count(q'.Items(k), d) == Count(q.Items(k), d) - Count(q.Batch(k, batchSize), d)
            && (Count(q'.Items(k), d) + Count(st'.Entries(k), d) == Count(q.Items(k), d) + Count(st.Entries(k), d)
                <==> Storable(st.enabled, k, d) || d !in q.Batch(k, batchSize))
  {
    var batch, rest := q.Batch(k, batchSize), q.Items(k)[Min(|q.Items(k)|, batchSize)..];
    FlushTaskHealthy(q, st, k, batchSize);
    RecordedCounts(st.enabled, k, batch, d);
    assert q.Items(k) == batch + rest;
    assert d in batch <==> Count(batch, d) > 0;
    assert batch == q.Items(k)[..Min(|q.Items(k)|, batchSize)];
    hide FlushTask, Recorded, Queue.Batch, Queue.Items, Queue.WellFormed;
    CountConcat(batch, rest, d);
    CountConcat(st.Entries(k), Recorded(st.enabled, k, batch), d);
  }

  lemma CountConcat(a: seq<Delta>, b: seq<Delta>, d: Delta)
    ensures Count(a + b, d) == Count(a, d) + Count(b, d)
  {
  }
}
