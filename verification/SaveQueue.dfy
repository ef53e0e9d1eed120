/**
 The bounded queue of Yjs deltas of one room as a pure value, and what its counter keeps account of. YjsSaveQueue has
 the class that updates it in place and flushes it to the task streams.
 A queue belongs to one room, so the session id is the same for all its items and is left implicit.
 */
module SaveQueue {

  const MAX_SAVE_QUEUE_SIZE := 10000
  const MAX_BATCH_SIZE := 100

  /** A task of the room, "<taskId>:<language>". */
  datatype TaskKey = TaskKey(id: string)

  /** Deltas waiting for their XADD, by task key. */
  datatype Queue<T> = Queue(pending: map<TaskKey, seq<T>>, totalPending: int, maxSize: nat) {

    function Items(key: TaskKey): seq<T> {
      if key in pending then pending[key] else []
    }

    predicate Full() {
      totalPending >= maxSize
    }

    function Enqueue(key: TaskKey, item: T): Queue<T> {
      if Full() then this
      else this.(pending := pending[key := Items(key) + [item]], totalPending := totalPending + 1)
    }

    function CommitBatch(key: TaskKey, count: int): Queue<T> {
      if key !in pending || |pending[key]| == 0 || count <= 0 then this
      else if count >= |pending[key]| then
        this.(pending := pending - {key}, totalPending := totalPending - |pending[key]|)
      else
        this.(pending := pending[key := pending[key][count..]], totalPending := totalPending - count)
    }

    function Batch(key: TaskKey, batchSize: nat): seq<T> {
      if |Items(key)| <= batchSize then Items(key) else Items(key)[..batchSize]
    }

    /** The counter is the sum of the list lengths, within the limit, and no list is left empty. */
    ghost predicate WellFormed() {
      && totalPending == SumOfLengths(pending)
      && totalPending <= maxSize
      && forall k :: k in pending ==> pending[k] != []
    }
  }

  ghost function SumOfLengths<T>(m: map<TaskKey, seq<T>>): nat {
    if m == map[] then 0
    else
      var k :| k in m;
      |m[k]| + SumOfLengths(m - {k})
  }

  lemma {:induction false} SumWithout<T>(m: map<TaskKey, seq<T>>, k: TaskKey)
    requires k in m
    ensures SumOfLengths(m) == |m[k]| + SumOfLengths(m - {k})
    decreases |m|
  {
    var j :| j in m && SumOfLengths(m) == |m[j]| + SumOfLengths(m - {j});
    if j != k {
      SumWithout(m - {j}, k);
      SumWithout(m - {k}, j);
      assert m - {j} - {k} == m - {k} - {j};
    }
  }

  /** Changing one list changes the sum by the difference of the two lengths. */
  lemma SumAfterUpdate<T>(q: Queue<T>, k: TaskKey, items: seq<T>)
    ensures SumOfLengths(q.pending[k := items]) == SumOfLengths(q.pending) - |q.Items(k)| + |items|
    ensures SumOfLengths(q.pending - {k}) == SumOfLengths(q.pending) - |q.Items(k)|
  {
    SumWithout(q.pending[k := items], k);
    assert q.pending[k := items] - {k} == q.pending - {k};
    if k in q.pending {
      SumWithout(q.pending, k);
    } else {
      assert q.pending - {k} == q.pending;
    }
  }

  /** A delta enters at the back of its own list when there is room, and is refused otherwise. */
  lemma EnqueueKeeps<T>(q: Queue<T>, key: TaskKey, item: T)
    requires q.WellFormed()
    ensures var r := q.Enqueue(key, item);
            && r.WellFormed()
            && (q.Full() <==> SumOfLengths(q.pending) == q.maxSize)
            && (q.Full() ==> r == q)
            && (!q.Full() ==> r.Items(key) == q.Items(key) + [item])
            && (!q.Full() ==> r.totalPending == q.totalPending + 1)
            && forall k :: k != key ==> r.Items(k) == q.Items(k)
  {
    SumAfterUpdate(q, key, q.Items(key) + [item]);
  }

  /** Committing removes exactly the oldest count deltas of one task, whatever the count. */
  lemma CommitKeeps<T>(q: Queue<T>, key: TaskKey, count: int)
    requires q.WellFormed()
    ensures var r := q.CommitBatch(key, count);
            var n := if count <= 0 then 0 else if count <= |q.Items(key)| then count else |q.Items(key)|;
            && r.WellFormed()
            && r.Items(key) == q.Items(key)[n..]
            && r.totalPending == q.totalPending - n
            && forall k :: k != key ==> r.Items(k) == q.Items(k)
  {
    SumAfterUpdate(q, key, if 0 < count < |q.Items(key)| then q.Items(key)[count..] else []);
  }

  lemma EmptyWhenZero<T>(q: Queue<T>)
    requires q.WellFormed()
    ensures q.totalPending >= 0
    ensures q.totalPending == 0 <==> q.pending == map[]
    ensures forall k :: |q.Items(k)| <= q.totalPending
  {
    forall k ensures |q.Items(k)| <= q.totalPending {
      SumAfterUpdate(q, k, []);
    }
    if q.pending != map[] {
      var k :| k in q.pending;
      SumAfterUpdate(q, k, []);
      assert |q.Items(k)| > 0;
    }
  }
}
