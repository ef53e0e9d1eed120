/**
 What a connection can always still do: end its replay, catch up with the stream, and drain when it is closed. The runs
 are built step by step, so none of the guarantees about connections that have caught up with the stream holds only
 for want of such a connection.
 */
module SseProgress {
  import opened SseStream
  import opened SseOrder
  import opened SseComplete
  import opened SseConnection

  lemma {:induction false} ExecConcat(s: State, a: seq<Step>, b: seq<Step>)
    ensures Exec(s, a + b) == Exec(Exec(s, a), b)
    decreases |b|
  {
    hide Next;
    if b != [] {
      ExecConcat(s, a, b[..|b| - 1]);
      assert (a + b)[..|a + b| - 1] == a + b[..|b| - 1];
    } else {
      assert a + b == a;
    }
  }

  lemma One(s: State, step: Step)
    ensures Exec(s, [step]) == Next(s, step)
  {
    hide Next;
    assert [step][..0] == [];
  }

  // The replay.

  /** Replaying, the connection has written what it counts. Only the replay's own fields move until it is live. */
  ghost predicate ReplayMoved(s: State, t: State) {
    t == s.(phase := t.phase, written := t.written, replayed := t.replayed, history := t.history, flawed := t.flawed)
  }

  /** The replay has written as many events as it may. */
  predicate Long(s: State, t: State) {
    s.phase.Replaying? && s.phase.total + |t.written| - |s.written| >= MAX_REPLAYED_EVENTS
  }

  /** The page in hand is written to its end. */
  lemma {:induction false} PageWrites(s: State) returns (more: seq<Step>)
    requires s.phase.Replaying?
    ensures var t := Exec(s, more);
            && ReplayMoved(s, t) && t.flawed == s.flawed && |t.written| == |s.written| + |s.phase.page|
            && t.phase == Replaying(if s.phase.page == [] then s.phase.cursor else s.phase.page[|s.phase.page| - 1],
                                    [], s.phase.total + |s.phase.page|)
    decreases |s.phase.page|
  {
    if s.phase.page == [] {
      more := [];
    } else {
      var t := Next(s, WritePage(true));
      StepIs(s, WritePage(true));
      hide Next, Exec;
      var rest := PageWrites(t);
      more := [WritePage(true)] + rest;
      ExecFirst(s, WritePage(true), rest);
    }
  }

  /** Between two pages: the limit ends the replay, an empty page ends it, and any other is the next to be written. */
  lemma NextPageOrEnd(s: State)
    requires s.phase.Replaying? && s.phase.page == [] && s.trimmed == 0
    ensures s.phase.total >= MAX_REPLAYED_EVENTS ==>
              Next(s, Truncate) == GoLive(s, s.phase.cursor).(flawed := true) && forall count :: Next(s, ReadPage(count)) == s
    ensures s.phase.total < MAX_REPLAYED_EVENTS ==>
              var page := NextPage(s.log, s.phase.cursor, 1);
              Next(s, ReadPage(1)) == if page == [] then GoLive(s, s.phase.cursor)
                                      else s.(phase := Replaying(s.phase.cursor, page, s.phase.total))
  {
    assert Visible(s) == s.log;
    hide NextPage, Visible;
  }

  lemma {:induction false} PagesEnd(s: State) returns (more: seq<Step>)
    requires s.phase.Replaying? && s.phase.page == [] && Sorted(s.log) && s.trimmed == 0
    ensures var t := Exec(s, more);
            && ReplayMoved(s, t) && t.phase.Live? && |t.written| >= |s.written|
            && (t.flawed <==> s.flawed || Long(s, t))
    decreases |s.log| - Rank(s.log, s.phase.cursor)
  {
    hide Next, Exec, NextPage, Rank, Ids, Sorted;
    NextPageOrEnd(s);
    One(s, Truncate);
    One(s, ReadPage(1));
    var page := NextPage(s.log, s.phase.cursor, 1);
    if s.phase.total >= MAX_REPLAYED_EVENTS {
      more := [Truncate];
    } else if page == [] {
      more := [ReadPage(1)];
    } else {
      var t := Next(s, ReadPage(1));
      PageMoves(s.log, s.phase.cursor, 1, |page|);
      var write := PageWrites(t);
      var u := Exec(t, write);
      var rest := PagesEnd(u);
      more := [ReadPage(1)] + (write + rest);
      ExecFirst(s, ReadPage(1), write + rest);
      ExecConcat(t, write, rest);
    }
  }

  /** A replay always comes to its end, with nothing lost unless it is longer than the limit. */
  lemma ReplayEnds(s: State) returns (more: seq<Step>)
    requires s.phase.Replaying? && Sorted(s.log) && s.trimmed == 0
    ensures var t := Exec(s, more);
            && ReplayMoved(s, t) && t.phase.Live?
            && (t.flawed <==> s.flawed || Long(s, t))
  {
    var write := PageWrites(s);
    hide Exec;
    var rest := PagesEnd(Exec(s, write));
    more := write + rest;
    ExecConcat(s, write, rest);
  }

  // Live.

  ghost predicate LiveMoved(s: State, t: State) {
    t == s.(reader := t.reader, batch := t.batch, buffer := t.buffer, written := t.written, sent := t.sent, base := t.base)
  }

  /** What has been read is dispatched and written, one event after the other. */
  lemma {:induction false} BatchFlows(s: State) returns (more: seq<Step>)
    requires s.phase.Live? && s.open && s.capacity > 0 && s.buffer == []
    ensures var t := Exec(s, more);
            LiveMoved(s, t) && t.batch == [] && t.buffer == [] && t.reader == s.reader && |t.written| >= |s.written|
    decreases |s.batch|
  {
    if s.batch == [] {
      more := [];
    } else {
      var t := Next(s, Dispatch);
      var u := Next(t, Deliver(true));
      assert LiveMoved(s, u) && u.buffer == [] && u.batch == s.batch[1..] && u.reader == s.reader;
      assert |u.written| >= |s.written|;
      hide Next, Exec;
      var rest := BatchFlows(u);
      more := [Dispatch] + ([Deliver(true)] + rest);
      ExecFirst(s, Dispatch, [Deliver(true)] + rest);
      ExecFirst(t, Deliver(true), rest);
    }
  }

  /** The reader goes on to the end of the stream. */
  lemma ReaderReads(s: State) returns (step: Step)
    requires s.batch == [] && s.trimmed == 0 && AllTyped(s.log) && (!s.reader.Dollar? ==> s.reader.pos <= |s.log|)
    ensures var t := Next(s, step);
            LiveMoved(s, t) && t.buffer == s.buffer && t.written == s.written && !t.reader.Dollar? && t.reader.pos == |s.log|
  {
    if s.reader.Dollar? {
      step := StartRead;
    } else {
      var pos := s.reader.pos;
      step := ReadBatch(|s.log| - pos);
      StepIs(s, step);
      hide Next;
      if pos < |s.log| {
        StretchGrows(s.log, pos, pos, |s.log| - pos);
      }
      hide TypedIds, LastTyped, AllTyped;
    }
  }

  lemma LiveCatchesUp(s: State) returns (more: seq<Step>)
    requires s.phase.Live? && s.open && s.capacity > 0 && s.trimmed == 0 && AllTyped(s.log)
    requires !s.reader.Dollar? ==> s.reader.pos <= |s.log|
    ensures var t := Exec(s, more);
            CaughtUp(t) && t.log == s.log && t.flawed == s.flawed && |t.written| >= |s.written|
  {
    var deliver := seq(|s.buffer|, i => Deliver(true));
    DeliversAll(s);
    hide Exec, Next;
    var a := Exec(s, deliver);
    var flow := BatchFlows(a);
    var b := Exec(a, flow);
    var read := ReaderReads(b);
    var c := Next(b, read);
    var rest := BatchFlows(c);
    more := deliver + (flow + ([read] + rest));
    ExecConcat(s, deliver, flow + ([read] + rest));
    ExecConcat(a, flow, [read] + rest);
    ExecFirst(b, read, rest);
  }

  /**
   A connection can always catch up: from every state in which it is open, whatever is in hand anywhere, there is a way
   on to having written everything, with nothing lost on it but what the limit of the replay cuts off.
   */
  lemma CanCatchUp(s: State)
    requires Sorted(s.log) && AllTyped(s.log) && s.trimmed == 0 && s.open && s.capacity > 0 && !s.phase.Closed?
    requires !s.reader.Dollar? ==> s.reader.pos <= |s.log|
    ensures exists more :: CaughtUp(Exec(s, more)) && Exec(s, more).log == s.log
              && (Exec(s, more).flawed ==> s.flawed || Long(s, Exec(s, more)))
  {
    hide Exec;
    if s.phase.Live? {
      var more := LiveCatchesUp(s);
    } else {
      var replay := ReplayEnds(s);
      var t := Exec(s, replay);
      var live := LiveCatchesUp(t);
      ExecConcat(s, replay, live);
      var more := replay + live;
      assert CaughtUp(Exec(s, more)) && Exec(s, more).log == s.log;
    }
  }

  /** Finishing waits for the connection to be closed and drained, and then ends it. */
  lemma FinishesIff(s: State)
    requires s.phase.Live?
    ensures Next(s, Finish) == if !s.open && s.buffer == [] then s.(phase := Closed) else s
  {
  }

  /** A closed connection takes nothing more, writes out what its buffer holds, and ends; nothing of it is lost. */
  lemma CloseDrains(s: State)
    requires s.phase.Live?
    ensures var t := Next(s, Close);
            var steps := seq(|s.buffer|, i => Deliver(true)) + [Finish];
            && (s.batch == [] || Next(t, Dispatch).buffer == s.buffer) && Next(t, Broadcast) == t
            && Exec(t, steps) == s.(open := false, buffer := [], phase := Closed,
                                    written := s.written + Unskipped(s.buffer, s.phase.last))
  {
    var t := Next(s, Close);
    assert t == s.(open := false);
    var deliver := seq(|s.buffer|, i => Deliver(true));
    DeliversAll(t);
    FinishesIff(Exec(t, deliver));
    hide Exec, Next;
    ExecConcat(t, deliver, [Finish]);
    One(Exec(t, deliver), Finish);
  }

  /** A connection can register at any moment: wherever the reader is in the stream, and after any id. */
  lemma CanAlwaysRegister(log: seq<Entry>, pos: nat, first: nat, lastEventId: int, capacity: nat)
    requires Sorted(log) && first <= pos <= |log| && lastEventId >= NO_ID
    ensures CanRegister(log, Dollar, first, lastEventId) && CanRegister(log, Blocked(pos), first, lastEventId)
    ensures CanRegister(log, At(pos), first, lastEventId)
  {
  }

  /** Without a Last-Event-ID a connection is live at once; with one it first replays what came after it. */
  lemma StartsWith(log: seq<Entry>, reader: Reader, first: nat, lastEventId: int, capacity: nat)
    requires CanRegister(log, reader, first, lastEventId)
    ensures var s := Registered(log, reader, first, lastEventId, capacity);
            && s.open && !s.flawed && s.written == [] && s.buffer == []
            && (s.phase.Live? <==> lastEventId == NO_ID)
            && (s.phase.Replaying? ==> s.phase == Replaying(lastEventId, [], 0))
  {
  }
}
