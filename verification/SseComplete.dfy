/**
 What a connection gets when nothing is dropped, trimmed, cut short or fails and every entry has a type: the entries
 after Last-Event-ID without a gap, exactly when the live cursor was fixed no later than the last history read.
 */
module SseComplete {
  import opened Sequences
  import opened SseStream
  import opened SseOrder

  ghost predicate AllTyped(es: seq<Entry>) {
    forall i :: 0 <= i < |es| ==> es[i].typed
  }

  lemma {:induction false} TypedAll(es: seq<Entry>)
    requires AllTyped(es)
    ensures |TypedIds(es)| == |es| && forall i :: 0 <= i < |es| ==> TypedIds(es)[i] == es[i].id
    ensures LastTyped(es) == |es|
    decreases |es|
  {
    if es != [] {
      TypedAll(es[..|es| - 1]);
    }
  }

  lemma {:induction false} AboveNone(ids: seq<nat>, x: int)
    requires forall i :: 0 <= i < |ids| ==> ids[i] <= x
    ensures Above(ids, x) == []
    decreases |ids|
  {
    if ids != [] {
      AboveNone(ids[..|ids| - 1], x);
    }
  }

  lemma {:induction false} AboveAll(ids: seq<nat>, x: int)
    requires forall i :: 0 <= i < |ids| ==> ids[i] > x
    ensures Above(ids, x) == ids
    decreases |ids|
  {
    if ids != [] {
      AboveAll(ids[..|ids| - 1], x);
    }
  }

  lemma {:induction false} AboveSame(ids: seq<nat>, x: int, y: int)
    requires forall i :: 0 <= i < |ids| ==> (ids[i] > x <==> ids[i] > y)
    ensures Above(ids, x) == Above(ids, y)
    decreases |ids|
  {
    if ids != [] {
      AboveSame(ids[..|ids| - 1], x, y);
    }
  }

  /** The reader has passed on all it read, in order, from the position it started at. */
  ghost predicate Reads(s: State) {
    && AllTyped(s.log) && s.trimmed == 0
    && (s.reader.Blocked? ==> s.base == s.reader.pos <= |s.log|)
    && (s.reader.At? ==> s.base <= s.reader.pos <= |s.log| && s.sent == TypedIds(s.log[s.base..s.reader.pos]))
    && (!s.reader.At? ==> s.sent == [] && s.batch == [])
  }

  lemma AppendReads(s: State, e: Entry)
    requires Reads(s) && e.typed
    ensures Reads(s.(log := s.log + [e]))
  {
    hide TypedIds;
    if s.reader.At? {
      assert (s.log + [e])[s.base..s.reader.pos] == s.log[s.base..s.reader.pos];
    }
  }

  lemma ReadsKeep(s: State, step: Step)
    requires Reads(s) && (step.Append? ==> step.e.typed) && !Next(s, step).flawed
    ensures Reads(Next(s, step))
  {
    if step.ReadBatch? {
      ReadBatchReads(s, step.n);
    } else if step.Append? {
      AppendReads(s, step.e);
      hide Reads;
    } else {
      hide TypedIds, Ids, NextPage, AllTyped, SkipReplayed;
    }
  }

  lemma StretchGrows(log: seq<Entry>, base: nat, pos: nat, n: nat)
    requires AllTyped(log) && base <= pos && pos + n <= |log|
    ensures TypedIds(log[base..pos]) + TypedIds(log[pos..pos + n]) == TypedIds(log[base..pos + n])
    ensures |TypedIds(log[pos..pos + n])| == n && LastTyped(log[pos..pos + n]) == n
  {
    TypedAll(log[pos..pos + n]);
    TypedConcat(log[base..pos], log[pos..pos + n]);
    hide TypedIds, LastTyped;
    assert log[base..pos] + log[pos..pos + n] == log[base..pos + n];
  }

  lemma ReadBatchReads(s: State, n: nat)
    requires Reads(s)
    ensures Reads(DoReadBatch(s, n))
  {
    if !s.reader.Dollar? && s.batch == [] && 0 < n <= |s.log| - s.reader.pos {
      var pos := s.reader.pos;
      var ids := TypedIds(s.log[pos..pos + n]);
      StretchGrows(s.log, s.base, pos, n);
      hide TypedIds, LastTyped, AllTyped;
      NoLeft(ids);
      var t := DoReadBatch(s, n);
      assert ids != [];
      assert t == s.(reader := At(pos + n), batch := ids, sent := s.sent + ids);
      hide DoReadBatch;
      if s.reader.Blocked? {
        assert s.base == pos && s.sent == [];
      }
      assert t.sent == TypedIds(t.log[t.base..pos + n]);
    }
  }

  /** Each event read is written, still on its way, or was skipped because the replay had shown it. */
  ghost predicate Accounted(s: State) {
    match s.phase
    case Replaying(_, _, _) => Queue(s) == s.sent
    case Live(last) => Output(s, last) == s.replayed + Above(s.sent, last)
    case Closed => true
  }

  lemma QuietAccounted(s: State, t: State)
    requires Accounted(s) && t.phase == s.phase && t.written == s.written && Queue(t) == Queue(s)
    requires t.sent == s.sent && t.replayed == s.replayed
    ensures Accounted(t)
  {
    hide Queue, Ids, Above;
  }

  lemma DispatchAccounted(s: State)
    requires Accounted(s) && !DoDispatch(s).flawed
    ensures Accounted(DoDispatch(s))
  {
    var t := DoDispatch(s);
    if s.batch != [] {
      HeadOfBatch(s.buffer, s.batch);
      hide Ids;
      assert Queue(t) == Queue(s);
    }
    hide Ids, Above, Queue;
    QuietAccounted(s, t);
  }

  lemma ReadBatchAccounted(s: State, n: nat)
    requires Accounted(s)
    ensures Accounted(DoReadBatch(s, n))
  {
    var t := DoReadBatch(s, n);
    hide Ids, Above, TypedIds, LastTyped;
    if t.batch != s.batch {
      assert s.batch == [];
      assert Queue(t) == Queue(s) + t.batch;
      if s.phase.Live? {
        AboveConcat(Queue(s), t.batch, s.phase.last);
        AboveConcat(s.sent, t.batch, s.phase.last);
        assert Output(t, s.phase.last) == Output(s, s.phase.last) + Above(t.batch, s.phase.last);
      }
    } else {
      assert Queue(t) == Queue(s);
    }
  }

  lemma DeliverAccounted(s: State, ok: bool)
    requires Accounted(s)
    ensures Accounted(DoDeliver(s, ok))
  {
    if s.phase.Live? && s.buffer != [] {
      DeliverOutput(s, s.phase.last);
    }
    hide Output;
  }

  lemma GoLiveAccounted(s: State, cursor: int)
    requires Accounted(s) && s.phase.Replaying?
    ensures Accounted(GoLive(s, cursor))
  {
    assert Queue(GoLive(s, cursor)) == Queue(s);
    hide Queue, Ids, Above;
  }

  lemma AccountedKeeps(s: State, step: Step)
    requires Accounted(s) && !Next(s, step).flawed
    ensures Accounted(Next(s, step))
  {
    var t := Next(s, step);
    match step
    case Dispatch => DispatchAccounted(s);
    case ReadBatch(n) => ReadBatchAccounted(s, n);
    case Deliver(ok) => DeliverAccounted(s, ok);
    case ReadPage(count) =>
      hide NextPage, Above, Ids;
      if s.phase.Replaying? {
        GoLiveAccounted(s, s.phase.cursor);
        assert Queue(t) == Queue(s);
      }
    case Broadcast =>
      IdsConcat(s.buffer, [Notice]);
      IdsOfOne(Notice);
      assert Queue(t) == Queue(s);
      hide Ids, Above, Queue;
      QuietAccounted(s, t);
    case Trim(_) =>
    case _ =>
      assert Queue(t) == Queue(s);
      hide Ids, Above, Queue;
  }

  // The replay.

  /** What history held after a cursor, in the ids of the whole stream. */
  function After(log: seq<Entry>, x: int): seq<nat> {
    Above(TypedIds(log), x)
  }

  /** The cursor is Last-Event-ID or the id of an entry. */
  ghost predicate CursorOk(log: seq<Entry>, cursor: int, lastEventId: int) {
    && lastEventId <= cursor
    && (cursor == lastEventId || exists i :: 0 <= i < |log| && log[i].id == cursor)
  }

  lemma CursorSplits(log: seq<Entry>, e: Entry, cursor: int, lastEventId: int)
    requires Sorted(log) && Fresh(log, e) && CursorOk(log, cursor, lastEventId)
    ensures e.id > cursor <==> e.id > lastEventId
    ensures CursorOk(log + [e], cursor, lastEventId)
  {
    if cursor != lastEventId {
      var i :| 0 <= i < |log| && log[i].id == cursor;
      assert (log + [e])[i].id == cursor;
    }
  }

  lemma AfterNext(log: seq<Entry>, e: Entry, x: int)
    requires e.typed
    ensures After(log + [e], x) == After(log, x) + if e.id > x then [e.id] else []
  {
    assert (log + [e])[..|log|] == log;
    var ids := TypedIds(log);
    assert TypedIds(log + [e]) == ids + [e.id];
    assert (ids + [e.id])[..|ids|] == ids;
  }

  lemma AfterFrom(ids: seq<nat>, r: nat, x: int)
    requires r <= |ids|
    requires (forall i :: 0 <= i < r ==> ids[i] <= x) && (forall i :: r <= i < |ids| ==> ids[i] > x)
    ensures Above(ids, x) == ids[r..]
  {
    hide Above;
    AboveConcat(ids[..r], ids[r..], x);
    AboveNone(ids[..r], x);
    AboveAll(ids[r..], x);
    NoLeft(ids[r..]);
    assert ids == ids[..r] + ids[r..];
  }

  function PageSize(log: seq<Entry>, cursor: int, count: nat): nat {
    if |log| - Rank(log, cursor) <= count then |log| - Rank(log, cursor) else count
  }

  lemma PageIds(log: seq<Entry>, cursor: int, count: nat)
    requires AllTyped(log)
    ensures var r, n := Rank(log, cursor), PageSize(log, cursor, count);
            |TypedIds(log)| == |log| && NextPage(log, cursor, count) == TypedIds(log)[r..r + n]
  {
    var r, n := Rank(log, cursor), PageSize(log, cursor, count);
    var page := log[r..r + n];
    assert page == if |log[r..]| <= count then log[r..] else log[r..][..count];
    TypedAll(log);
    TypedAll(page);
    hide TypedIds, Rank, PageSize;
    assert TypedIds(page) == TypedIds(log)[r..r + n];
  }

  lemma RankSplits(log: seq<Entry>, cursor: int)
    requires Sorted(log) && AllTyped(log)
    ensures var ids, r := TypedIds(log), Rank(log, cursor);
            && |ids| == |log| && Increasing(ids)
            && (forall i :: 0 <= i < r ==> ids[i] <= cursor)
            && (forall i :: r <= i < |ids| ==> ids[i] > cursor)
  {
    RankAbove(log, cursor);
    TypedAll(log);
    hide TypedIds, Rank;
  }

  lemma IdsSplit(ids: seq<nat>, r: nat, n: nat, cursor: int)
    requires Increasing(ids) && r + n <= |ids|
    requires (forall i :: 0 <= i < r ==> ids[i] <= cursor) && (forall i :: r <= i < |ids| ==> ids[i] > cursor)
    ensures Above(ids, cursor) == ids[r..r + n] + if n > 0 then Above(ids, ids[r + n - 1]) else ids[r..]
  {
    hide Above, Increasing;
    AfterFrom(ids, r, cursor);
    SplitTail(ids, r, r + n);
    if n > 0 {
      AfterElement(ids, r + n);
    } else {
      NoLeft(ids[r..]);
    }
  }

  lemma AfterElement(ids: seq<nat>, n: nat)
    requires Increasing(ids) && 0 < n <= |ids|
    ensures Above(ids, ids[n - 1]) == ids[n..]
  {
    AfterFrom(ids, n, ids[n - 1]);
    hide Above;
  }

  /** A page starts the rest of the history; the empty page comes only at its end. */
  lemma PageSplits(log: seq<Entry>, cursor: int, count: nat)
    requires Sorted(log) && AllTyped(log) && count > 0
    ensures var page := NextPage(log, cursor, count);
            && (page == [] ==> After(log, cursor) == [] && forall i :: 0 <= i < |log| ==> log[i].id <= cursor)
            && (page != [] ==>
                  && After(log, cursor) == page + After(log, page[|page| - 1])
                  && page[|page| - 1] > cursor
                  && exists i :: 0 <= i < |log| && log[i].id == page[|page| - 1])
  {
    var r, n, page, ids := Rank(log, cursor), PageSize(log, cursor, count), NextPage(log, cursor, count), TypedIds(log);
    PageIds(log, cursor, count);
    RankSplits(log, cursor);
    TypedAll(log);
    assert n == 0 ==> r == |log|;
    hide TypedIds, Rank, PageSize, NextPage, Above, Increasing, Sorted;
    IdsSplit(ids, r, n, cursor);
    if n > 0 {
      LastOfSlice(ids, r, n);
      assert ids[r + n - 1] == log[r + n - 1].id;
    }
  }

  lemma LastOfSlice(ids: seq<nat>, r: nat, n: nat)
    requires r + n <= |ids| && n > 0
    ensures ids[r..r + n] != [] && ids[r..r + n][|ids[r..r + n]| - 1] == ids[r + n - 1]
  {
  }

  function Edge(cursor: int, page: seq<nat>): int {
    if page == [] then cursor else page[|page| - 1]
  }

  /** The replay writes what history has after Last-Event-ID, and leaves a cursor that tells old from new. */
  ghost predicate HistoryOk(s: State, lastEventId: int) {
    match s.phase
    case Replaying(cursor, page, _) =>
      && CursorOk(s.log, Edge(cursor, page), lastEventId)
      && After(s.log, lastEventId) == Ids(s.written) + page + After(s.log, Edge(cursor, page))
    case Live(last) =>
      && s.history <= |s.log|
      && s.replayed == After(s.log[..s.history], lastEventId)
      && (forall i :: 0 <= i < s.history ==> s.log[i].id <= last)
      && (forall i :: s.history <= i < |s.log| ==> (s.log[i].id > last <==> s.log[i].id > lastEventId))
      && CursorOk(s.log, last, lastEventId)
    case Closed => true
  }

  lemma AppendReplaying(s: State, e: Entry, lastEventId: int)
    requires HistoryOk(s, lastEventId) && Sorted(s.log) && e.typed && Fresh(s.log, e) && s.phase.Replaying?
    ensures HistoryOk(s.(log := s.log + [e]), lastEventId)
  {
    var edge, w := Edge(s.phase.cursor, s.phase.page), Ids(s.written) + s.phase.page;
    CursorSplits(s.log, e, edge, lastEventId);
    AfterNext(s.log, e, lastEventId);
    AfterNext(s.log, e, edge);
    hide After, CursorOk, Ids, Sorted, Edge;
    if e.id > lastEventId {
      assert (w + After(s.log, edge)) + [e.id] == w + (After(s.log, edge) + [e.id]);
    }
  }

  lemma AppendLive(s: State, e: Entry, lastEventId: int)
    requires HistoryOk(s, lastEventId) && Sorted(s.log) && Fresh(s.log, e) && s.phase.Live?
    ensures HistoryOk(s.(log := s.log + [e]), lastEventId)
  {
    CursorSplits(s.log, e, s.phase.last, lastEventId);
    hide After, CursorOk, Sorted;
    assert (s.log + [e])[..s.history] == s.log[..s.history];
  }

  lemma PageLoadedHistory(s: State, page: seq<nat>, lastEventId: int)
    requires HistoryOk(s, lastEventId) && s.phase.Replaying? && s.phase.page == [] && page != []
    requires After(s.log, s.phase.cursor) == page + After(s.log, page[|page| - 1])
    requires page[|page| - 1] > s.phase.cursor && exists i :: 0 <= i < |s.log| && s.log[i].id == page[|page| - 1]
    ensures HistoryOk(s.(phase := s.phase.(page := page)), lastEventId)
  {
    hide After, Ids;
    NoRight(Ids(s.written));
    Assoc(Ids(s.written), page, After(s.log, page[|page| - 1]));
  }

  lemma ReplayedHistory(s: State, lastEventId: int)
    requires HistoryOk(s, lastEventId) && s.phase.Replaying? && s.phase.page == []
    requires After(s.log, s.phase.cursor) == [] && forall i :: 0 <= i < |s.log| ==> s.log[i].id <= s.phase.cursor
    ensures HistoryOk(GoLive(s, s.phase.cursor), lastEventId)
  {
    hide After, Ids;
    NoRight(Ids(s.written));
    assert s.log[..|s.log|] == s.log;
  }

  lemma ReadPageHistory(s: State, count: nat, lastEventId: int)
    requires HistoryOk(s, lastEventId) && Sorted(s.log) && Reads(s)
    ensures HistoryOk(DoReadPage(s, count), lastEventId)
  {
    if s.phase.Replaying? && s.phase.page == [] && count > 0 {
      assert Visible(s) == s.log;
      hide HistoryOk, After, NextPage, Sorted, Ids, AllTyped, Visible;
      PageSplits(s.log, s.phase.cursor, count);
      hide Reads;
      var page := NextPage(s.log, s.phase.cursor, count);
      if page == [] {
        ReplayedHistory(s, lastEventId);
      } else {
        PageLoadedHistory(s, page, lastEventId);
      }
    }
  }

  lemma WritePageHistory(s: State, lastEventId: int)
    requires HistoryOk(s, lastEventId)
    ensures HistoryOk(DoWritePage(s, true), lastEventId)
  {
    if s.phase.Replaying? && s.phase.page != [] {
      var page := s.phase.page;
      IdsConcat(s.written, [Event(page[0])]);
      IdsOfOne(Event(page[0]));
      hide After, Ids, CursorOk;
      assert Edge(page[0], page[1..]) == Edge(s.phase.cursor, page);
      HeadTail(Ids(s.written), page);
    }
  }

  lemma HistoryKeeps(s: State, step: Step, lastEventId: int)
    requires HistoryOk(s, lastEventId) && Sorted(s.log) && Reads(s)
    requires (step.Append? ==> step.e.typed) && !Next(s, step).flawed
    ensures HistoryOk(Next(s, step), lastEventId)
  {
    StepIs(s, step);
    hide After, Ids, CursorOk, Sorted, Reads, Edge;
    match step
    case Append(e) => AppendHistory(s, e, lastEventId); hide Next, HistoryOk;
    case ReadPage(count) => ReadPageHistory(s, count, lastEventId); hide Next, HistoryOk;
    case WritePage(true) => WritePageHistory(s, lastEventId); hide Next, HistoryOk;
    case WritePage(false) => hide Next;
    case _ => QuietHistory(s, step); hide Next;
  }

  lemma AppendHistory(s: State, e: Entry, lastEventId: int)
    requires HistoryOk(s, lastEventId) && Sorted(s.log) && e.typed
    ensures HistoryOk(DoAppend(s, e), lastEventId)
  {
    if Fresh(s.log, e) {
      if s.phase.Replaying? {
        AppendReplaying(s, e, lastEventId);
      } else if s.phase.Live? {
        AppendLive(s, e, lastEventId);
      }
    }
    hide After, CursorOk, Ids, Sorted, Edge;
  }

  /** The other steps touch neither log nor replay, unless they end the connection or lose something. */
  lemma QuietHistory(s: State, step: Step)
    requires !step.Append? && !step.ReadPage? && !step.WritePage?
    ensures var t := Next(s, step);
            || t.flawed
            || t.phase.Closed?
            || (&& t.log == s.log && t.phase == s.phase && t.replayed == s.replayed && t.history == s.history
                && (s.phase.Replaying? ==> t.written == s.written))
  {
    hide TypedIds, LastTyped, Ids, NextPage, SkipReplayed, Visible, DoAppend, DoReadPage, DoWritePage;
  }

  ghost predicate CompleteInv(s: State, lastEventId: int) {
    !s.flawed ==> Reads(s) && Accounted(s) && HistoryOk(s, lastEventId)
  }

  lemma CompleteKeeps(s: State, step: Step, lastEventId: int)
    requires CompleteInv(s, lastEventId) && Sorted(s.log) && (step.Append? ==> step.e.typed)
    ensures CompleteInv(Next(s, step), lastEventId)
  {
    FlawedStays(s, step);
    hide Next, Reads, Accounted, HistoryOk, Sorted;
    if !Next(s, step).flawed {
      ReadsKeep(s, step);
      AccountedKeeps(s, step);
      HistoryKeeps(s, step, lastEventId);
    }
  }

  lemma FlawedStays(s: State, step: Step)
    ensures s.flawed ==> Next(s, step).flawed
  {
    hide TypedIds, Ids, NextPage, Visible, LastTyped;
  }

  predicate TypedSteps(steps: seq<Step>) {
    forall i :: 0 <= i < |steps| && steps[i].Append? ==> steps[i].e.typed
  }

  lemma RegisteredComplete(log: seq<Entry>, reader: Reader, first: nat, lastEventId: int, capacity: nat)
    requires CanRegister(log, reader, first, lastEventId) && AllTyped(log)
    requires reader.Blocked? ==> reader.pos <= |log|
    ensures CompleteInv(Registered(log, reader, first, lastEventId, capacity), lastEventId)
  {
    var s := Registered(log, reader, first, lastEventId, capacity);
    assert Ids([]) == [] && Queue(s) == s.batch;
    assert s.phase.Live? ==> Output(s, NO_ID) == [] + Above(s.sent, NO_ID);
    assert log[..0] == [] && After([], lastEventId) == [];
    assert s.phase.Replaying? ==> Ids(s.written) + [] + After(log, lastEventId) == After(log, lastEventId);
    hide TypedIds, Above, Ids, After;
  }

  lemma {:induction false} CompleteHolds(log: seq<Entry>, reader: Reader, first: nat, lastEventId: int, capacity: nat,
                                         steps: seq<Step>)
    requires CanRegister(log, reader, first, lastEventId) && AllTyped(log) && TypedSteps(steps)
    ensures CompleteInv(Exec(Registered(log, reader, first, lastEventId, capacity), steps), lastEventId)
    decreases |steps|
  {
    if steps == [] {
      RegisteredComplete(log, reader, first, lastEventId, capacity);
    } else {
      hide CompleteInv, Next, Registered, OrderInv, AllTyped, CanRegister;
      CompleteHolds(log, reader, first, lastEventId, capacity, steps[..|steps| - 1]);
      WrittenIncreases(log, reader, first, lastEventId, capacity, steps[..|steps| - 1]);
      var s := Exec(Registered(log, reader, first, lastEventId, capacity), steps[..|steps| - 1]);
      assert Sorted(s.log) by { LogSorted(s); }
      CompleteKeeps(s, steps[|steps| - 1], lastEventId);
    }
  }

  lemma LogSorted(s: State)
    requires OrderInv(s)
    ensures Sorted(s.log)
  {
  }

  // The theorem.

  /** The live feed shows what lies beyond the history from this position on. */
  function LiveFrom(s: State): nat {
    if s.base < s.history then s.history else s.base
  }

  function LiveTo(s: State): nat
    requires !s.reader.Dollar?
  {
    if s.reader.pos < LiveFrom(s) then LiveFrom(s) else s.reader.pos
  }

  lemma StretchAfter(log: seq<Entry>, lo: nat, hi: nat, history: nat, last: int, lastEventId: int)
    requires AllTyped(log) && lo <= hi <= |log|
    requires (forall i :: 0 <= i < history && i < |log| ==> log[i].id <= last)
    requires (forall i :: history <= i < |log| ==> (log[i].id > last <==> log[i].id > lastEventId))
    ensures hi <= history ==> After(log[lo..hi], last) == []
    ensures lo >= history ==> After(log[lo..hi], last) == After(log[lo..hi], lastEventId)
  {
    var es := log[lo..hi];
    TypedAll(es);
    hide TypedIds, Above;
    if hi <= history {
      AboveNone(TypedIds(es), last);
    }
    if lo >= history {
      AboveSame(TypedIds(es), last, lastEventId);
    }
  }

  lemma AfterConcat(a: seq<Entry>, b: seq<Entry>, x: int)
    ensures After(a + b, x) == After(a, x) + After(b, x)
  {
    TypedConcat(a, b);
    AboveConcat(TypedIds(a), TypedIds(b), x);
  }

  lemma SentBeyondHistory(s: State, lastEventId: int)
    requires Reads(s) && HistoryOk(s, lastEventId) && s.phase.Live? && !s.reader.Dollar?
    ensures s.history <= |s.log| && LiveTo(s) <= |s.log|
    ensures Above(s.sent, s.phase.last) == After(s.log[LiveFrom(s)..LiveTo(s)], lastEventId)
  {
    var h, last, pos := s.history, s.phase.last, s.reader.pos;
    hide TypedIds, Above;
    AfterNothing(lastEventId);
    AfterNothing(last);
    if s.reader.Blocked? || pos <= h {
      assert s.log[LiveFrom(s)..LiveTo(s)] == [];
      if s.reader.At? {
        StretchAfter(s.log, s.base, pos, h, last, lastEventId);
      }
    } else {
      var mid := LiveFrom(s);
      if s.base < h {
        assert s.log[s.base..pos] == s.log[s.base..h] + s.log[h..pos];
        AfterConcat(s.log[s.base..h], s.log[h..pos], last);
        StretchAfter(s.log, s.base, h, h, last, lastEventId);
      }
      StretchAfter(s.log, mid, pos, h, last, lastEventId);
    }
  }

  lemma AfterNothing(x: int)
    ensures After([], x) == [] && Above([], x) == []
  {
  }

  /**
   What one connection gets, exactly. In every run where nothing was dropped, trimmed, cut short or failed, once the
   live cursor is fixed: what is written and will be written of the queue is the history up to the last history read
   and the live entries from the later of that read and the cursor on, all after Last-Event-ID. What lies between the
   last history read and a later cursor is missing.
   */
  lemma DeliveredExactly(log: seq<Entry>, reader: Reader, first: nat, lastEventId: int, capacity: nat, steps: seq<Step>)
    requires CanRegister(log, reader, first, lastEventId) && AllTyped(log) && TypedSteps(steps)
    requires var s := Exec(Registered(log, reader, first, lastEventId, capacity), steps);
             !s.flawed && s.phase.Live? && !s.reader.Dollar?
    ensures var s := Exec(Registered(log, reader, first, lastEventId, capacity), steps);
            && s.history <= |s.log| && LiveTo(s) <= |s.log|
            && Output(s, s.phase.last)
               == After(s.log[..s.history], lastEventId) + After(s.log[LiveFrom(s)..LiveTo(s)], lastEventId)
  {
    CompleteHolds(log, reader, first, lastEventId, capacity, steps);
    var s := Exec(Registered(log, reader, first, lastEventId, capacity), steps);
    hide Exec, Registered, After, Output, Above;
    SentBeyondHistory(s, lastEventId);
  }

  /** The reader has read the whole stream, and all of it has been dispatched and taken out of the buffer. */
  predicate CaughtUp(s: State) {
    s.phase.Live? && !s.reader.Dollar? && s.reader.pos == |s.log| && s.batch == [] && s.buffer == []
  }

  /** No entry after Last-Event-ID came between the last history read and the moment the live cursor was fixed. */
  ghost predicate NothingBetween(s: State, lastEventId: int) {
    s.base <= s.history || (s.base <= |s.log| && After(s.log[s.history..s.base], lastEventId) == [])
  }

  /**
   Completeness. A connection that has caught up has been written exactly the stream after Last-Event-ID if and only
   if no such entry came after the last history read and before the live cursor was fixed; in particular if the cursor
   was fixed first.
   */
  lemma CompleteIffCursorInTime(log: seq<Entry>, reader: Reader, first: nat, lastEventId: int, capacity: nat, steps: seq<Step>)
    requires CanRegister(log, reader, first, lastEventId) && AllTyped(log) && TypedSteps(steps)
    requires var s := Exec(Registered(log, reader, first, lastEventId, capacity), steps); !s.flawed && CaughtUp(s)
    ensures var s := Exec(Registered(log, reader, first, lastEventId, capacity), steps);
            s.history <= |s.log| && (Ids(s.written) == After(s.log, lastEventId) <==> NothingBetween(s, lastEventId))
  {
    DeliveredExactly(log, reader, first, lastEventId, capacity, steps);
    CompleteHolds(log, reader, first, lastEventId, capacity, steps);
    var s := Exec(Registered(log, reader, first, lastEventId, capacity), steps);
    hide Exec, Registered, AllTyped, Reads, HistoryOk, Accounted;
    NothingQueued(s);
    BaseIn(s);
    hide Ids, Output;
    assert LiveTo(s) == |s.log|;
    WholeIff(s.log, s.history, s.base, lastEventId, Ids(s.written));
  }

  lemma NothingQueued(s: State)
    requires CaughtUp(s)
    ensures Output(s, s.phase.last) == Ids(s.written)
  {
    assert Queue(s) == [];
  }

  lemma WholeIff(log: seq<Entry>, h: nat, base: nat, x: int, w: seq<nat>)
    requires h <= |log| && base <= |log|
    requires w == After(log[..h], x) + After(log[if base < h then h else base..|log|], x)
    ensures w == After(log, x) <==> base <= h || After(log[h..base], x) == []
  {
    GapSplits(log, h, base, x);
    hide After;
    assert log[h..|log|] == log[h..] && log[base..|log|] == log[base..];
  }

  lemma BaseIn(s: State)
    requires Reads(s) && !s.reader.Dollar?
    ensures s.base <= s.reader.pos <= |s.log|
  {
  }

  lemma GapSplits(log: seq<Entry>, h: nat, base: nat, x: int)
    requires h <= |log| && base <= |log|
    ensures After(log, x) == After(log[..h], x) + After(log[h..], x)
    ensures h <= base ==> After(log, x) == After(log[..h], x) + (After(log[h..base], x) + After(log[base..], x))
  {
    assert log == log[..h] + log[h..];
    AfterConcat(log[..h], log[h..], x);
    if h <= base {
      assert log[h..] == log[h..base] + log[base..];
      AfterConcat(log[h..base], log[base..], x);
    }
  }

  lemma StepOn(run: seq<Step>, s: State, s0: State, step: Step) returns (run': seq<Step>, s': State)
    requires s == Exec(s0, run) && TypedSteps(run) && (step.Append? ==> step.e.typed)
    ensures s' == Next(s, step) && s' == Exec(s0, run') && TypedSteps(run')
  {
    run', s' := run + [step], Next(s, step);
    assert run'[..|run|] == run;
  }

  lemma ExecNothing(s: State)
    ensures Exec(s, []) == s && TypedSteps([])
  {
  }

  lemma BothAfter()
    ensures After([FIRST, SECOND], 0) == [1, 2]
  {
    hide After;
    AfterNext([FIRST], SECOND, 0);
    AfterNext([], FIRST, 0);
    AfterNothing(0);
    NoLeft([FIRST]);
    Pair(FIRST, SECOND);
    NoLeft([FIRST.id]);
    Pair(FIRST.id, SECOND.id);
  }

  const FIRST := Entry(1, true)
  const SECOND := Entry(2, true)

  /** An empty stream is replayed, and the reader's first poll comes back empty. */
  lemma EmptyPoll(s0: State) returns (s1: State, s2: State, s3: State)
    requires s0 == Registered([], Dollar, 0, 0, 64)
    ensures s1 == Next(s0, StartRead) && s2 == Next(s1, ReadPage(20)) && s3 == Next(s2, PollEmpty)
    ensures s3 == s0.(phase := Live(0), replayed := [], history := 0)
  {
    s1 := Next(s0, StartRead);
    s2 := Next(s1, ReadPage(20));
    s3 := Next(s2, PollEmpty);
  }

  /** One entry arrives before the next poll begins, and one after. */
  lemma TwoEntries(s3: State) returns (s4: State, s5: State, s6: State)
    requires s3.log == [] && s3.reader == Dollar
    ensures s4 == Next(s3, Append(FIRST)) && s5 == Next(s4, StartRead) && s6 == Next(s5, Append(SECOND))
    ensures s6 == s3.(log := [FIRST, SECOND], reader := Blocked(1), base := 1)
  {
    s4 := Next(s3, Append(FIRST));
    s5 := Next(s4, StartRead);
    s6 := Next(s5, Append(SECOND));
  }

  lemma SecondDelivered(s6: State) returns (s7: State, s8: State, s9: State)
    requires s6.log == [FIRST, SECOND] && s6.reader == Blocked(1) && s6.trimmed == 0 && s6.batch == [] && s6.buffer == []
    requires s6.open && s6.capacity > 0 && s6.phase == Live(0) && s6.written == []
    ensures s7 == Next(s6, ReadBatch(1)) && s8 == Next(s7, Dispatch) && s9 == Next(s8, Deliver(true))
    ensures CaughtUp(s9) && s9.flawed == s6.flawed && s9.written == [Event(2)] && s9.log == s6.log
  {
    assert s6.log[1..1 + 1] == [SECOND];
    TypedAll([SECOND]);
    s7 := Next(s6, ReadBatch(1));
    assert s7.batch == [2] && s7.reader == At(2);
    s8 := Next(s7, Dispatch);
    assert s8.buffer == [Event(2)];
    s9 := Next(s8, Deliver(true));
  }

  /**
   It can happen without any failure: the reader asks for "$" again after an empty poll, so an entry that arrives
   between two polls is in neither the replay nor the live feed, and the connection goes on without it.
   */
  lemma EmptyPollLosesAnEvent() returns (steps: seq<Step>)
    ensures CanRegister([], Dollar, 0, 0) && TypedSteps(steps)
    ensures var s := Exec(Registered([], Dollar, 0, 0, 64), steps);
            CaughtUp(s) && !s.flawed && s.written == [Event(2)] && s.log == [FIRST, SECOND] && After(s.log, 0) == [1, 2]
  {
    var s0 := Registered([], Dollar, 0, 0, 64);
    var s1, s2, s3 := EmptyPoll(s0);
    var s4, s5, s6 := TwoEntries(s3);
    var s7, s8, s9 := SecondDelivered(s6);
    BothAfter();
    hide Next, Registered, After, CaughtUp, Exec, TypedSteps;
    ExecNothing(s0);
    var s;
    steps, s := StepOn([], s0, s0, StartRead);
    steps, s := StepOn(steps, s, s0, ReadPage(20));
    steps, s := StepOn(steps, s, s0, PollEmpty);
    steps, s := StepOn(steps, s, s0, Append(FIRST));
    steps, s := StepOn(steps, s, s0, StartRead);
    steps, s := StepOn(steps, s, s0, Append(SECOND));
    steps, s := StepOn(steps, s, s0, ReadBatch(1));
    steps, s := StepOn(steps, s, s0, Dispatch);
    steps, s := StepOn(steps, s, s0, Deliver(true));
  }

  // Why entries need a type.

  predicate NoneTyped(es: seq<Entry>) {
    forall i :: 0 <= i < |es| ==> !es[i].typed
  }

  lemma {:induction false} TypedNone(es: seq<Entry>)
    ensures TypedIds(es) == [] <==> NoneTyped(es)
    ensures LastTyped(es) > 0 <==> !NoneTyped(es)
    decreases |es|
  {
    if es != [] {
      var p := es[..|es| - 1];
      TypedNone(p);
      assert NoneTyped(es) <==> NoneTyped(p) && !es[|es| - 1].typed by {
        assert forall i :: 0 <= i < |p| ==> p[i] == es[i];
      }
    }
  }

  /** A cursor that is past "$" moves exactly when the batch has a typed entry: without one it reads the same again. */
  lemma CursorMovesIffTyped(s: State, n: nat)
    requires s.reader.At? && s.batch == [] && s.trimmed <= s.reader.pos && 0 < n <= |s.log| - s.reader.pos
    ensures var t := DoReadBatch(s, n);
            (t == s <==> NoneTyped(s.log[s.reader.pos..s.reader.pos + n])) && (t != s ==> t.reader.pos > s.reader.pos)
  {
    TypedNone(s.log[s.reader.pos..s.reader.pos + n]);
    hide TypedIds, LastTyped, NoneTyped;
  }

  /** The replay stops at the first page without a typed entry, whatever comes after it. */
  lemma ReplayStopsIffUntypedPage(log: seq<Entry>, cursor: int, count: nat)
    ensures var r := Rank(log, cursor);
            NextPage(log, cursor, count) == [] <==> NoneTyped(log[r..r + PageSize(log, cursor, count)])
  {
    var r, n := Rank(log, cursor), PageSize(log, cursor, count);
    TypedNone(log[r..r + n]);
    hide TypedIds, Rank, NoneTyped;
    assert log[r..r + n] == if |log[r..]| <= count then log[r..] else log[r..][..count];
  }

  // What can be lost, and what cannot.

  /** The steps that cost the connection something: there are no others. */
  predicate Loses(s: State, step: Step) {
    match step
    case Trim(_) => true
    case Dispatch => s.batch != [] && (!s.open || |s.buffer| >= s.capacity)
    case PageFails => s.phase.Replaying? && s.phase.page == []
    case WritePage(ok) => !ok && s.phase.Replaying? && s.phase.page != []
    case Truncate => s.phase.Replaying? && s.phase.page == [] && s.phase.total >= MAX_REPLAYED_EVENTS
    case Deliver(ok) => !ok && s.phase.Live? && s.buffer != [] && !SkipReplayed(s.buffer[0], s.phase.last)
    case _ => false
  }

  lemma FlawedStep(s: State, step: Step)
    ensures Next(s, step).flawed <==> s.flawed || Loses(s, step)
  {
    hide Visible, NextPage, TypedIds, LastTyped, Ids;
  }

  /**
   A connection is flawed exactly when the stream was trimmed, a dispatched event found it closed or its buffer full, a
   page of history could not be read or written, the replay reached its limit, or a frame could not be written.
   */
  lemma {:induction false} FlawedIff(s0: State, steps: seq<Step>)
    ensures Exec(s0, steps).flawed <==> s0.flawed || exists i :: 0 <= i < |steps| && Loses(Exec(s0, steps[..i]), steps[i])
    decreases |steps|
  {
    if steps != [] {
      var before := steps[..|steps| - 1];
      FlawedIff(s0, before);
      FlawedStep(Exec(s0, before), steps[|steps| - 1]);
      LosesNext(s0, steps);
      hide Next, Loses;
    }
  }

  lemma LosesNext(s0: State, steps: seq<Step>)
    requires steps != []
    ensures var before := steps[..|steps| - 1];
            (exists i :: 0 <= i < |steps| && Loses(Exec(s0, steps[..i]), steps[i]))
            <==> || (exists i :: 0 <= i < |before| && Loses(Exec(s0, before[..i]), before[i]))
                 || Loses(Exec(s0, before), steps[|steps| - 1])
  {
    hide Exec, Loses;
    var before := steps[..|steps| - 1];
    assert forall i :: 0 <= i < |before| ==> before[..i] == steps[..i] && before[i] == steps[i];
  }

  /** The next event of the batch goes into the buffer of an open connection that has room. */
  lemma DispatchReaches(s: State)
    requires s.batch != [] && s.open && |s.buffer| < s.capacity
    ensures var t := Next(s, Dispatch); t.buffer == s.buffer + [Event(s.batch[0])] && t.batch == s.batch[1..] && !Loses(s, Dispatch)
  {
  }

  /** What a live connection writes of its buffer: everything that is not an event the replay has shown. */
  function Unskipped(buffer: seq<Frame>, last: int): seq<Frame> {
    if buffer == [] then []
    else (if SkipReplayed(buffer[0], last) then [] else [buffer[0]]) + Unskipped(buffer[1..], last)
  }

  /** A live connection whose writes succeed empties its buffer onto the wire, in order. */
  lemma {:induction false} DeliversAll(s: State)
    requires s.phase.Live?
    ensures Exec(s, seq(|s.buffer|, i => Deliver(true)))
            == s.(buffer := [], written := s.written + Unskipped(s.buffer, s.phase.last))
    decreases |s.buffer|
  {
    var n := |s.buffer|;
    var steps := seq(n, i => Deliver(true));
    if n > 0 {
      var t := Next(s, Deliver(true));
      DeliverIs(s);
      hide Next, Exec;
      var rest := seq(n - 1, i => Deliver(true));
      DeliversAll(t);
      assert steps == [Deliver(true)] + rest;
      ExecFirst(s, Deliver(true), rest);
    } else {
      assert s.written + [] == s.written;
    }
  }

  lemma DeliverIs(s: State)
    requires s.phase.Live? && s.buffer != []
    ensures var t := Next(s, Deliver(true));
            && t == s.(buffer := s.buffer[1..], written := t.written)
            && t.written + Unskipped(s.buffer[1..], s.phase.last) == s.written + Unskipped(s.buffer, s.phase.last)
  {
    StepIs(s, Deliver(true));
    hide Next;
    var skipped := SkipReplayed(s.buffer[0], s.phase.last);
    assert s.written + ([s.buffer[0]] + Unskipped(s.buffer[1..], s.phase.last))
           == s.written + [s.buffer[0]] + Unskipped(s.buffer[1..], s.phase.last);
  }

  lemma {:induction false} ExecFirst(s: State, step: Step, rest: seq<Step>)
    ensures Exec(s, [step] + rest) == Exec(Next(s, step), rest)
    decreases |rest|
  {
    hide Next;
    var run := [step] + rest;
    if rest != [] {
      ExecFirst(s, step, rest[..|rest| - 1]);
      assert run[..|run| - 1] == [step] + rest[..|rest| - 1];
    } else {
      assert run[..0] == [];
    }
  }

  lemma UnskippedLast(buffer: seq<Frame>, f: Frame, last: int)
    requires !SkipReplayed(f, last)
    ensures Unskipped(buffer + [f], last) == Unskipped(buffer, last) + [f]
  {
    if buffer != [] {
      UnskippedLast(buffer[1..], f, last);
      assert (buffer + [f])[1..] == buffer[1..] + [f];
    }
  }

  /**
   A broadcast notice reaches every live connection that is open and has room, after what waits there already and
   whatever the replay has shown; it never waits for a full or closed one, and costs it nothing.
   */
  lemma BroadcastReaches(s: State)
    requires s.phase.Live?
    ensures var t := Next(s, Broadcast);
            && (!s.open || |s.buffer| >= s.capacity ==> t == s)
            && (s.open && |s.buffer| < s.capacity ==>
                  Exec(t, seq(|t.buffer|, i => Deliver(true))).written == s.written + Unskipped(s.buffer, s.phase.last) + [Notice])
  {
    var t := Next(s, Broadcast);
    if s.open && |s.buffer| < s.capacity {
      DeliversAll(t);
      UnskippedLast(s.buffer, Notice, s.phase.last);
      hide Exec;
      assert s.written + (Unskipped(s.buffer, s.phase.last) + [Notice]) == s.written + Unskipped(s.buffer, s.phase.last) + [Notice];
    }
  }

  /** The buffer never grows beyond its capacity. */
  lemma {:induction false} BufferBounded(s0: State, steps: seq<Step>)
    requires |s0.buffer| <= s0.capacity
    ensures |Exec(s0, steps).buffer| <= Exec(s0, steps).capacity == s0.capacity
    decreases |steps|
  {
    if steps != [] {
      BufferBounded(s0, steps[..|steps| - 1]);
      BufferStep(Exec(s0, steps[..|steps| - 1]), steps[|steps| - 1]);
      hide Next;
    }
  }

  lemma BufferStep(s: State, step: Step)
    requires |s.buffer| <= s.capacity
    ensures |Next(s, step).buffer| <= Next(s, step).capacity == s.capacity
  {
    hide Visible, NextPage, TypedIds, LastTyped, Ids, SkipReplayed;
  }

  /** A trim takes the oldest entries that are left, up to its position, and never gives any back. */
  lemma TrimTakesOldest(s: State, n: nat)
    requires s.trimmed <= |s.log| && n <= |s.log|
    ensures Visible(Next(s, Trim(n))) == Visible(s)[if n > s.trimmed then n - s.trimmed else 0..]
  {
  }

  /**
   A reader that has no cursor yet starts over from the end: after a read that fails, that times out, or that brings only
   entries without a type. One that has a cursor keeps it.
   */
  lemma OnlyACursorIsKept(s: State, step: Step)
    requires s.batch == [] && s.trimmed <= |s.log| && (!s.reader.Dollar? ==> s.trimmed <= s.reader.pos <= |s.log|)
    requires || step == ReadFails
             || (step == PollEmpty && s.reader != At(|s.log|) && (!s.reader.Dollar? ==> s.reader.pos == |s.log|))
             || (step.ReadBatch? && !s.reader.Dollar? && 0 < step.n <= |s.log| - s.reader.pos
                 && NoneTyped(s.log[s.reader.pos..s.reader.pos + step.n]))
    ensures var t := Next(s, step);
            && (s.reader.At? ==> t == s)
            && (s.reader.Blocked? ==> Next(t, StartRead).reader == Blocked(|s.log|))
  {
    if step.ReadBatch? {
      TypedNone(s.log[s.reader.pos..s.reader.pos + step.n]);
    }
    hide TypedIds, LastTyped, NoneTyped, NextPage, Ids;
  }
}
