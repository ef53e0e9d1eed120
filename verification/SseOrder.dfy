/** In every run the stream events written to a connection have strictly increasing ids, so each comes at most once. */
module SseOrder {
  import opened Sequences
  import opened SseStream

  // How the filters act on sequences.

  lemma {:induction false} AboveConcat(a: seq<nat>, b: seq<nat>, x: int)
    ensures Above(a + b, x) == Above(a, x) + Above(b, x)
    decreases |b|
  {
    if b == [] {
      assert a + b == a;
    } else {
      AboveConcat(a, b[..|b| - 1], x);
      assert (a + b)[..|a + b| - 1] == a + b[..|b| - 1];
    }
  }

  lemma {:induction false} IdsConcat(a: seq<Frame>, b: seq<Frame>)
    ensures Ids(a + b) == Ids(a) + Ids(b)
    decreases |b|
  {
    if b == [] {
      assert a + b == a;
    } else {
      IdsConcat(a, b[..|b| - 1]);
      assert (a + b)[..|a + b| - 1] == a + b[..|b| - 1];
    }
  }

  lemma {:induction false} TypedConcat(a: seq<Entry>, b: seq<Entry>)
    ensures TypedIds(a + b) == TypedIds(a) + TypedIds(b)
    decreases |b|
  {
    if b == [] {
      assert a + b == a;
    } else {
      TypedConcat(a, b[..|b| - 1]);
      assert (a + b)[..|a + b| - 1] == a + b[..|b| - 1];
    }
  }

  lemma IdsOfOne(f: Frame)
    ensures Ids([f]) == if f.Event? then [f.id] else []
  {
    assert [f][..0] == [];
  }

  lemma AboveOne(id: nat, x: int)
    ensures Above([id], x) == if id > x then [id] else []
  {
    assert [id][..0] == [];
  }

  /** The typed ids of a stretch of the stream increase and are ids of that stretch. */
  lemma {:induction false} TypedIncreasing(es: seq<Entry>)
    requires Sorted(es)
    ensures Increasing(TypedIds(es))
    ensures forall id :: id in TypedIds(es) ==> exists i :: 0 <= i < |es| && es[i].id == id
    decreases |es|
  {
    if es != [] {
      var p := es[..|es| - 1];
      TypedIncreasing(p);
      forall id | id in TypedIds(es) ensures exists i :: 0 <= i < |es| && es[i].id == id {
        if id in TypedIds(p) {
          var i :| 0 <= i < |p| && p[i].id == id;
          assert es[i].id == id;
        }
      }
      forall i | 0 <= i < |TypedIds(p)| ensures TypedIds(p)[i] < es[|es| - 1].id {
        assert TypedIds(p)[i] in TypedIds(p);
        var k :| 0 <= k < |p| && p[k].id == TypedIds(p)[i];
      }
    }
  }

  lemma {:induction false} AboveIncreasing(ids: seq<nat>, x: int)
    requires Increasing(ids)
    ensures Increasing(Above(ids, x))
    ensures forall id :: id in Above(ids, x) <==> id in ids && id > x
    decreases |ids|
  {
    if ids != [] {
      var p := ids[..|ids| - 1];
      AboveIncreasing(p, x);
      assert ids == p + [ids[|ids| - 1]];
      if ids[|ids| - 1] > x {
        IncreasingConcat(Above(p, x), [ids[|ids| - 1]]);
      }
    }
  }

  lemma IncreasingConcat(a: seq<nat>, b: seq<nat>)
    requires Increasing(a) && Increasing(b) && forall x, y :: x in a && y in b ==> x < y
    ensures Increasing(a + b)
  {
    var c := a + b;
    forall i, j | 0 <= i < j < |c| ensures c[i] < c[j] {
      if i < |a| <= j {
        assert a[i] in a && b[j - |a|] in b;
      }
    }
  }

  /** Any part of an increasing sequence increases. */
  lemma IncreasingWithout(a: seq<nat>, b: seq<nat>, c: seq<nat>)
    requires Increasing(a + b + c)
    ensures Increasing(a + c) && Increasing(a) && Increasing(c)
  {
    var d := a + b + c;
    assert forall i :: 0 <= i < |a| ==> a[i] == d[i];
    assert forall i :: 0 <= i < |c| ==> c[i] == d[|a| + |b| + i];
  }

  /** What comes after the rank is above the cursor. */
  lemma {:induction false} RankAbove(es: seq<Entry>, x: int)
    ensures forall i :: Rank(es, x) <= i < |es| ==> es[i].id > x
    ensures Rank(es, x) > 0 ==> es[Rank(es, x) - 1].id <= x
    decreases |es|
  {
    if es != [] && es[|es| - 1].id > x {
      var p := es[..|es| - 1];
      RankAbove(p, x);
      assert forall i :: 0 <= i < |p| ==> p[i] == es[i];
    }
  }

  // The invariant.

  function Queue(s: State): seq<nat> {
    Ids(s.buffer) + s.batch
  }

  /** The reader is past this id. */
  ghost predicate Passed(s: State, id: nat) {
    s.reader.At? && 0 < s.reader.pos <= |s.log| && id <= s.log[s.reader.pos - 1].id
  }

  ghost predicate ReaderOk(s: State) {
    && Sorted(s.log)
    && (!s.reader.Dollar? ==> s.reader.pos <= |s.log|)
    && Increasing(Queue(s))
    && forall id :: id in Queue(s) ==> Passed(s, id)
  }

  /** What is written and what will be written of the queue. */
  function Output(s: State, last: int): seq<nat> {
    Ids(s.written) + Above(Queue(s), last)
  }

  ghost predicate WrittenOk(s: State) {
    match s.phase
    case Replaying(cursor, page, _) =>
      && Increasing(Ids(s.written) + page)
      && (forall id :: id in Ids(s.written) ==> id <= cursor)
      && (forall id :: id in page ==> id > cursor)
    case Live(last) =>
      && Increasing(Output(s, last))
      && forall id :: id in Output(s, last) ==> id <= last || Passed(s, id)
    case Closed => Increasing(Ids(s.written))
  }

  ghost predicate OrderInv(s: State) {
    ReaderOk(s) && WrittenOk(s)
  }

  /** Steps that leave what is queued and written alone. */
  lemma QuietKeeps(s: State, t: State)
    requires OrderInv(s)
    requires t.phase == s.phase && t.written == s.written && Queue(t) == Queue(s)
    requires Sorted(t.log) && (!t.reader.Dollar? ==> t.reader.pos <= |t.log|)
    requires forall id :: Passed(s, id) ==> Passed(t, id)
    ensures OrderInv(t)
  {
    hide Passed, Sorted, Increasing, Above, Ids, Queue;
  }

  lemma AppendKeeps(s: State, e: Entry)
    requires OrderInv(s)
    ensures OrderInv(DoAppend(s, e))
  {
    var t := DoAppend(s, e);
    assert Sorted(t.log);
    hide OrderInv, Queue, Increasing, Sorted;
    QuietKeeps(s, t);
  }

  lemma {:induction false} LastTypedBound(es: seq<Entry>)
    requires Sorted(es) && TypedIds(es) != []
    ensures 0 < LastTyped(es) && forall id :: id in TypedIds(es) ==> id <= es[LastTyped(es) - 1].id
    decreases |es|
  {
    if es[|es| - 1].typed {
      TypedIncreasing(es);
    } else {
      LastTypedBound(es[..|es| - 1]);
    }
  }

  /** A batch lies beyond all the reader has passed, and moves the reader past it. */
  lemma BatchFacts(s: State, t: State, from: nat, n: nat)
    requires ReaderOk(s) && !s.reader.Dollar? && s.reader.pos <= from && from + n <= |s.log|
    requires TypedIds(s.log[from..from + n]) != []
    requires t.log == s.log && t.reader == At(from + LastTyped(s.log[from..from + n]))
    ensures var es := s.log[from..from + n];
            && Increasing(TypedIds(es))
            && from + LastTyped(es) <= |s.log|
            && (forall id :: id in TypedIds(es) ==> Passed(t, id))
            && (forall id :: Passed(s, id) ==> Passed(t, id))
            && (forall x: nat, y :: Passed(s, x) && y in TypedIds(es) ==> x < y)
  {
    var es := s.log[from..from + n];
    TypedIncreasing(es);
    LastTypedBound(es);
    hide TypedIds, LastTyped, Queue, Increasing;
  }

  lemma EmptyBatchKeeps(s: State, t: State)
    requires OrderInv(s) && t.log == s.log && t.buffer == s.buffer && t.batch == s.batch
    requires t.phase == s.phase && t.written == s.written
    requires t.reader == s.reader || (!s.reader.At? && t.reader == Dollar)
    ensures OrderInv(t)
  {
    SameQueue(s, t);
    hide Queue, Increasing, Sorted, Ids;
    QuietKeeps(s, t);
  }

  /** A read that brings something: the cursor moves to the last typed entry of what was read. */
  lemma ReadBatchIs(s: State, n: nat) returns (from: nat)
    requires DoReadBatch(s, n).batch != s.batch
    ensures s.batch == [] && !s.reader.Dollar? && s.reader.pos <= from && from + n <= |s.log|
    ensures var es := s.log[from..from + n];
            TypedIds(es) != [] &&
            DoReadBatch(s, n) == s.(reader := At(from + LastTyped(es)), batch := TypedIds(es), sent := s.sent + TypedIds(es))
  {
    hide TypedIds, LastTyped;
    from := if s.reader.pos < s.trimmed then s.trimmed else s.reader.pos;
  }

  lemma ReadBatchKeeps(s: State, n: nat)
    requires OrderInv(s)
    ensures OrderInv(DoReadBatch(s, n))
  {
    var t := DoReadBatch(s, n);
    hide Increasing, Sorted, Above, Ids, WrittenOk;
    if t.batch == s.batch {
      hide TypedIds, OrderInv, Queue;
      EmptyBatchKeeps(s, t);
    } else {
      hide DoReadBatch, TypedIds, LastTyped, Passed, Queue;
      var from := ReadBatchIs(s, n);
      BatchFacts(s, t, from, n);
      hide OrderInv;
      BatchQueued(s, t, TypedIds(s.log[from..from + n]));
    }
  }

  lemma BatchQueued(s: State, t: State, ids: seq<nat>)
    requires OrderInv(s) && s.batch == [] && t.batch == ids && t.buffer == s.buffer
    requires t.phase == s.phase && t.written == s.written && t.log == s.log && (!t.reader.Dollar? ==> t.reader.pos <= |t.log|)
    requires Increasing(ids) && forall id :: id in ids ==> Passed(t, id)
    requires forall id :: Passed(s, id) ==> Passed(t, id)
    requires forall x: nat, y :: Passed(s, x) && y in ids ==> x < y
    ensures OrderInv(t)
  {
    assert Queue(s) == Ids(s.buffer) && Queue(t) == Queue(s) + ids;
    hide Passed, Sorted, Queue, Increasing;
    IncreasingConcat(Queue(s), ids);
    if s.phase.Live? {
      var last := s.phase.last;
      AboveConcat(Queue(s), ids, last);
      AboveIncreasing(ids, last);
      AboveIncreasing(Queue(t), last);
      assert Output(t, last) == Output(s, last) + Above(ids, last);
      IncreasingConcat(Output(s, last), Above(ids, last));
    }
  }

  /** Part of the queue goes away without being written. */
  lemma QueueShrinks(s: State, t: State, a: seq<nat>, b: seq<nat>, c: seq<nat>)
    requires OrderInv(s) && Queue(s) == a + b + c && Queue(t) == a + c
    requires t.log == s.log && t.reader == s.reader && t.phase == s.phase && t.written == s.written
    ensures OrderInv(t)
  {
    assert forall id :: id in Queue(t) ==> id in Queue(s) && (Passed(s, id) ==> Passed(t, id));
    IncreasingWithout(a, b, c);
    hide Passed, Sorted, Queue, Increasing;
    if s.phase.Live? {
      var last := s.phase.last;
      AboveConcat(a + b, c, last);
      AboveConcat(a, b, last);
      AboveConcat(a, c, last);
      var w := Ids(s.written);
      hide Ids, Above;
      Assoc(w, Above(a, last) + Above(b, last), Above(c, last));
      Assoc(w, Above(a, last), Above(b, last));
      Assoc(w, Above(a, last), Above(c, last));
      IncreasingWithout(w + Above(a, last), Above(b, last), Above(c, last));
      assert forall id :: id in Output(t, last) ==> id in Output(s, last);
    }
  }

  lemma SameQueueKeeps(s: State, t: State)
    requires OrderInv(s) && Queue(t) == Queue(s)
    requires t.log == s.log && t.reader == s.reader && t.phase == s.phase && t.written == s.written
    ensures OrderInv(t)
  {
    hide Queue, Increasing, Sorted, Ids;
    QuietKeeps(s, t);
  }

  /** Where the head of a batch stands in the queue, before and after it has gone into the buffer. */
  lemma HeadOfBatch(buffer: seq<Frame>, batch: seq<nat>)
    requires batch != []
    ensures Ids(buffer) + batch == Ids(buffer) + [batch[0]] + batch[1..]
    ensures Ids(buffer + [Event(batch[0])]) + batch[1..] == Ids(buffer) + batch
  {
    IdsConcat(buffer, [Event(batch[0])]);
    IdsOfOne(Event(batch[0]));
    hide Ids;
    HeadTail(Ids(buffer), batch);
  }

  lemma DispatchKeeps(s: State)
    requires OrderInv(s)
    ensures OrderInv(DoDispatch(s))
  {
    hide OrderInv, Ids;
    if s.batch != [] {
      HeadOfBatch(s.buffer, s.batch);
      if s.open && |s.buffer| < s.capacity {
        SameQueueKeeps(s, DoDispatch(s));
      } else {
        QueueShrinks(s, DoDispatch(s), Ids(s.buffer), [s.batch[0]], s.batch[1..]);
      }
    }
  }

  lemma BroadcastKeeps(s: State)
    requires OrderInv(s)
    ensures OrderInv(DoBroadcast(s))
  {
    IdsConcat(s.buffer, [Notice]);
    IdsOfOne(Notice);
    assert Queue(DoBroadcast(s)) == Queue(s);
    hide Queue, Increasing, Sorted, Ids;
    QuietKeeps(s, DoBroadcast(s));
  }

  lemma FirstOfQueue(s: State)
    requires s.buffer != []
    ensures Queue(s) == Ids([s.buffer[0]]) + Queue(s.(buffer := s.buffer[1..]))
    ensures Ids(s.written + [s.buffer[0]]) == Ids(s.written) + Ids([s.buffer[0]])
  {
    IdsConcat([s.buffer[0]], s.buffer[1..]);
    IdsConcat(s.written, [s.buffer[0]]);
    assert s.buffer == [s.buffer[0]] + s.buffer[1..];
  }

  lemma SkipKeeps(s: State)
    requires OrderInv(s) && s.buffer != []
    ensures OrderInv(s.(buffer := s.buffer[1..]))
  {
    var t := s.(buffer := s.buffer[1..]);
    FirstOfQueue(s);
    var f, rest := Ids([s.buffer[0]]), Queue(t);
    assert Queue(s) == [] + f + rest && rest == [] + rest;
    hide OrderInv, Queue, Ids, Increasing;
    QueueShrinks(s, t, [], f, rest);
  }

  /** The head of the buffer is either skipped, and then adds nothing, or written. */
  lemma DeliverOutput(s: State, last: int)
    requires s.buffer != []
    ensures var u := s.(buffer := s.buffer[1..]);
            && (SkipReplayed(s.buffer[0], last) ==> Output(u, last) == Output(s, last))
            && (!SkipReplayed(s.buffer[0], last) ==> Output(u.(written := s.written + [s.buffer[0]]), last) == Output(s, last))
  {
    var f, u := s.buffer[0], s.(buffer := s.buffer[1..]);
    FirstOfQueue(s);
    SameQueue(u, u.(written := s.written + [f]));
    AboveFrame(f, last);
    hide Queue, Ids, Above;
    AboveConcat(Ids([f]), Queue(u), last);
    NoLeft(Above(Queue(u), last));
    Assoc(Ids(s.written), Ids([f]), Above(Queue(u), last));
  }

  lemma SameQueue(s: State, t: State)
    requires t.buffer == s.buffer && t.batch == s.batch
    ensures Queue(t) == Queue(s)
  {
  }

  lemma AboveFrame(f: Frame, last: int)
    ensures Above(Ids([f]), last) == if SkipReplayed(f, last) then [] else Ids([f])
  {
    IdsOfOne(f);
    if f.Event? {
      AboveOne(f.id, last);
    }
  }

  lemma WriteKeeps(s: State)
    requires OrderInv(s) && s.buffer != [] && s.phase.Live? && !SkipReplayed(s.buffer[0], s.phase.last)
    ensures OrderInv(s.(buffer := s.buffer[1..], written := s.written + [s.buffer[0]]))
  {
    var u := s.(buffer := s.buffer[1..]);
    var t := u.(written := s.written + [s.buffer[0]]);
    hide OrderInv, Queue, Output;
    SkipKeeps(s);
    SameQueue(u, t);
    DeliverOutput(s, s.phase.last);
    OutputKept(s, u, t);
  }

  lemma OutputKept(s: State, u: State, t: State)
    requires OrderInv(s) && OrderInv(u) && s.phase.Live? && t.phase == s.phase
    requires Queue(t) == Queue(u) && Output(t, s.phase.last) == Output(s, s.phase.last)
    requires u.log == t.log == s.log && u.reader == t.reader == s.reader
    ensures OrderInv(t)
  {
    assert forall id :: Passed(s, id) == Passed(t, id) == Passed(u, id);
    hide Queue, Increasing, Sorted, Passed, Output;
  }

  lemma ClosedKeeps(s: State, t: State)
    requires OrderInv(s) && t.phase == Closed && t.written == s.written && t.buffer == s.buffer && t.batch == s.batch
    requires t.log == s.log && t.reader == s.reader
    ensures OrderInv(t)
  {
    assert Queue(t) == Queue(s) && forall id :: Passed(s, id) ==> Passed(t, id);
    InvIncreases(s);
    hide Queue, Passed, Sorted, Increasing, Ids, Above;
  }

  lemma DeliverKeeps(s: State, ok: bool)
    requires OrderInv(s)
    ensures OrderInv(DoDeliver(s, ok))
  {
    hide OrderInv;
    if s.phase.Live? && s.buffer != [] {
      if SkipReplayed(s.buffer[0], s.phase.last) {
        SkipKeeps(s);
      } else if ok {
        WriteKeeps(s);
      } else {
        ClosedKeeps(s, DoDeliver(s, ok));
      }
    }
  }

  lemma InvIncreases(s: State)
    requires OrderInv(s)
    ensures Increasing(Ids(s.written))
  {
    hide Ids, Above, Queue, ReaderOk;
    var w := Ids(s.written);
    match s.phase
    case Replaying(_, page, _) =>
      assert w + page + [] == w + page;
      IncreasingWithout(w, page, []);
    case Live(last) =>
      assert w + Above(Queue(s), last) + [] == Output(s, last);
      IncreasingWithout(w, Above(Queue(s), last), []);
    case Closed =>
  }

  lemma GoLiveKeeps(s: State, cursor: int)
    requires OrderInv(s) && s.phase.Replaying? && s.phase.cursor == cursor
    ensures OrderInv(GoLive(s, cursor)) && OrderInv(GoLive(s, cursor).(flawed := true))
  {
    var t := GoLive(s, cursor);
    assert Queue(t) == Queue(s);
    AboveIncreasing(Queue(s), cursor);
    assert Ids(s.written) + s.phase.page + [] == Ids(s.written) + s.phase.page;
    IncreasingWithout(Ids(s.written), s.phase.page, []);
    IncreasingConcat(Ids(s.written), Above(Queue(s), cursor));
    assert forall id :: Passed(s, id) ==> Passed(t, id) && Passed(t.(flawed := true), id);
    hide Ids, Above, Increasing, Sorted, Passed;
  }

  lemma PageAbove(es: seq<Entry>, cursor: int, n: nat)
    requires Sorted(es) && Rank(es, cursor) + n <= |es|
    ensures var page := es[Rank(es, cursor)..Rank(es, cursor) + n]; Sorted(page) && forall i :: 0 <= i < |page| ==> page[i].id > cursor
  {
    RankAbove(es, cursor);
    hide Rank;
    var r := Rank(es, cursor);
    var page := es[r..r + n];
    assert forall i :: 0 <= i < n ==> page[i] == es[r + i];
  }

  lemma TypedAbove(page: seq<Entry>, cursor: int)
    requires Sorted(page) && forall i :: 0 <= i < |page| ==> page[i].id > cursor
    ensures Increasing(TypedIds(page)) && forall id :: id in TypedIds(page) ==> id > cursor
  {
    TypedIncreasing(page);
    hide TypedIds, Increasing, Sorted;
  }

  lemma PageFacts(es: seq<Entry>, cursor: int, count: nat)
    requires Sorted(es)
    ensures Increasing(NextPage(es, cursor, count)) && forall id :: id in NextPage(es, cursor, count) ==> id > cursor
  {
    hide Rank, TypedIds, Increasing;
    var r := Rank(es, cursor);
    var rest := es[r..];
    var n := if |rest| <= count then |rest| else count;
    PageAbove(es, cursor, n);
    assert es[r..r + n] == if |rest| <= count then rest else rest[..count];
    TypedAbove(es[r..r + n], cursor);
  }

  lemma PageLoaded(s: State, page: seq<nat>)
    requires OrderInv(s) && s.phase.Replaying? && s.phase.page == []
    requires Increasing(page) && forall id :: id in page ==> id > s.phase.cursor
    ensures OrderInv(s.(phase := s.phase.(page := page)))
  {
    var t := s.(phase := s.phase.(page := page));
    assert Queue(t) == Queue(s) && forall id :: Passed(s, id) ==> Passed(t, id);
    assert Ids(s.written) + s.phase.page == Ids(s.written);
    IncreasingConcat(Ids(s.written), page);
    hide Queue, Passed, Sorted, Increasing, Ids;
  }

  lemma ReadPageKeeps(s: State, count: nat)
    requires OrderInv(s)
    ensures OrderInv(DoReadPage(s, count))
  {
    if s.phase.Replaying? && s.phase.page == [] {
      GoLiveKeeps(s, s.phase.cursor);
      PageFacts(Visible(s), s.phase.cursor, count);
      hide OrderInv, NextPage, Increasing;
      var ids := NextPage(Visible(s), s.phase.cursor, count);
      if ids != [] {
        PageLoaded(s, ids);
      }
    }
  }

  lemma FirstIsLeast(w: seq<nat>, page: seq<nat>)
    requires Increasing(w + page) && page != []
    ensures forall id :: id in page[1..] ==> id > page[0]
  {
    IncreasingWithout(w, page, []);
    NoRight(w + page);
    assert forall i :: 0 <= i < |page| ==> (w + page)[|w| + i] == page[i];
  }

  lemma PageWritten(s: State)
    requires OrderInv(s) && s.phase.Replaying? && s.phase.page != []
    ensures OrderInv(DoWritePage(s, true))
  {
    var t, page, w := DoWritePage(s, true), s.phase.page, Ids(s.written);
    IdsConcat(s.written, [Event(page[0])]);
    IdsOfOne(Event(page[0]));
    SameQueue(s, t);
    hide Ids, Queue, Sorted;
    FirstIsLeast(w, page);
    HeadTail(w, page);
    assert forall id :: Passed(s, id) ==> Passed(t, id);
    assert page[0] in page;
    hide Passed, Increasing;
  }

  lemma WritePageKeeps(s: State, ok: bool)
    requires OrderInv(s)
    ensures OrderInv(DoWritePage(s, ok))
  {
    if s.phase.Replaying? && s.phase.page != [] {
      GoLiveKeeps(s, s.phase.cursor);
      PageWritten(s);
    }
  }

  lemma OrderKeeps(s: State, step: Step)
    requires OrderInv(s)
    ensures OrderInv(Next(s, step))
  {
    match step
    case Append(e) => AppendKeeps(s, e);
    case ReadBatch(n) => ReadBatchKeeps(s, n);
    case Dispatch => DispatchKeeps(s);
    case Broadcast => BroadcastKeeps(s);
    case ReadPage(count) => ReadPageKeeps(s, count);
    case PageFails => PageFailsKeeps(s);
    case WritePage(ok) => WritePageKeeps(s, ok);
    case Truncate => PageFailsKeeps(s);
    case Deliver(ok) => DeliverKeeps(s, ok);
    case Finish => FinishKeeps(s);
    case _ =>
      assert Queue(Next(s, step)) == Queue(s);
      hide Queue, Increasing, Sorted;
      QuietKeeps(s, Next(s, step));
  }

  lemma PageFailsKeeps(s: State)
    requires OrderInv(s)
    ensures OrderInv(DoPageFails(s)) && OrderInv(DoTruncate(s))
  {
    hide OrderInv;
    if s.phase.Replaying? {
      GoLiveKeeps(s, s.phase.cursor);
    }
  }

  lemma FinishKeeps(s: State)
    requires OrderInv(s)
    ensures OrderInv(DoFinish(s))
  {
    var t := DoFinish(s);
    if s.phase.Live? {
      assert Queue(t) == Queue(s) && forall id :: Passed(s, id) ==> Passed(t, id);
      assert Ids(s.written) + Above(Queue(s), s.phase.last) + [] == Output(s, s.phase.last);
      IncreasingWithout(Ids(s.written), Above(Queue(s), s.phase.last), []);
      hide Queue, Passed, Sorted, Increasing;
    }
  }

  lemma StartOk(s: State)
    requires Sorted(s.log) && (!s.reader.Dollar? ==> s.reader.pos <= |s.log|)
    requires s.buffer == [] && s.written == [] && Increasing(s.batch) && forall id :: id in s.batch ==> Passed(s, id)
    requires s.phase == Live(NO_ID) || (s.phase.Replaying? && s.phase.page == [])
    ensures OrderInv(s)
  {
    assert Queue(s) == s.batch && Ids(s.written) == [];
    AboveIncreasing(s.batch, NO_ID);
    hide Ids, Passed, Sorted, Increasing, Above, Queue;
    assert s.phase.Live? ==> Output(s, NO_ID) == Above(s.batch, NO_ID);
    assert s.phase.Replaying? ==> Ids(s.written) + s.phase.page == [];
    EmptyIncreases();
  }

  lemma EmptyIncreases()
    ensures Increasing([])
  {
  }

  lemma RegisteredOk(log: seq<Entry>, reader: Reader, first: nat, lastEventId: int, capacity: nat)
    requires CanRegister(log, reader, first, lastEventId)
    ensures OrderInv(Registered(log, reader, first, lastEventId, capacity))
  {
    var s := Registered(log, reader, first, lastEventId, capacity);
    RegisteredBatch(s, log, reader, first);
    hide TypedIds, OrderInv, Passed, Increasing;
    StartOk(s);
  }

  lemma RegisteredBatch(s: State, log: seq<Entry>, reader: Reader, first: nat)
    requires Sorted(log) && s.log == log && s.reader == reader && (reader.At? ==> first <= reader.pos <= |log|)
    requires s.batch == if reader.At? then TypedIds(log[first..reader.pos]) else []
    ensures Increasing(s.batch) && forall id :: id in s.batch ==> Passed(s, id)
  {
    if reader.At? {
      TypedIncreasing(log[first..reader.pos]);
    }
  }

  /**
   In every run, whatever is dropped, trimmed, cut short or fails, the stream events written to a connection have
   strictly increasing ids; in particular none is written twice.
   */
  lemma {:induction false} WrittenIncreases(log: seq<Entry>, reader: Reader, first: nat, lastEventId: int, capacity: nat,
                                            steps: seq<Step>)
    requires CanRegister(log, reader, first, lastEventId)
    ensures var s := Exec(Registered(log, reader, first, lastEventId, capacity), steps);
            OrderInv(s) && Increasing(Ids(s.written))
    decreases |steps|
  {
    if steps == [] {
      RegisteredOk(log, reader, first, lastEventId, capacity);
    } else {
      hide OrderInv, Next, Registered, Increasing;
      WrittenIncreases(log, reader, first, lastEventId, capacity, steps[..|steps| - 1]);
      OrderKeeps(Exec(Registered(log, reader, first, lastEventId, capacity), steps[..|steps| - 1]), steps[|steps| - 1]);
    }
    InvIncreases(Exec(Registered(log, reader, first, lastEventId, capacity), steps));
  }
}
