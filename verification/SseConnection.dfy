/** The two ends of one connection as the code runs them: the bounded client buffer, and the handler's loops. */
module SseConnection {
  import opened Sequences
  import opened SseStream
  import opened SseOrder
  import opened SseComplete

  /** One send to an open client: when, and whether the buffer had room. */
  datatype Attempt = Attempt(now: int, taken: bool)

  /** The time of the first drop since the last send that had room, or 0. */
  function FirstDrop(log: seq<Attempt>): int {
    if log == [] || log[|log| - 1].taken then 0
    else
      var before := FirstDrop(log[..|log| - 1]);
      if before == 0 then log[|log| - 1].now else before
  }

  ghost predicate Clocked(log: seq<Attempt>) {
    && (forall i :: 0 <= i < |log| ==> log[i].now > 0)
    && forall i, j :: 0 <= i <= j < |log| ==> log[i].now <= log[j].now
  }

  ghost predicate OnlyDrops(log: seq<Attempt>, from: int) {
    0 <= from < |log| && forall k :: from <= k < |log| ==> !log[k].taken
  }

  /** The buffer has stayed full for at least the grace period: no send had room since some drop that long ago. */
  ghost predicate Overdue(log: seq<Attempt>, grace: int) {
    exists i :: OnlyDrops(log, i) && i < |log| - 1 && log[|log| - 1].now - log[i].now >= grace
  }

  /** FirstDrop is the time of the earliest drop after which nothing had room. */
  lemma {:induction false} FirstDropIsEarliest(log: seq<Attempt>)
    requires Clocked(log)
    ensures FirstDrop(log) == 0 <==> log == [] || log[|log| - 1].taken
    ensures FirstDrop(log) != 0 ==> exists i :: OnlyDrops(log, i) && log[i].now == FirstDrop(log)
    ensures forall i :: OnlyDrops(log, i) ==> FirstDrop(log) <= log[i].now
    decreases |log|
  {
    if log != [] && !log[|log| - 1].taken {
      var p := log[..|log| - 1];
      assert Clocked(p) by {
        assert forall i :: 0 <= i < |p| ==> p[i] == log[i];
      }
      FirstDropIsEarliest(p);
      if FirstDrop(p) != 0 {
        var i :| OnlyDrops(p, i) && p[i].now == FirstDrop(p);
        assert OnlyDrops(log, i);
      } else {
        assert OnlyDrops(log, |log| - 1);
      }
      forall i | OnlyDrops(log, i) ensures FirstDrop(log) <= log[i].now {
        if i < |p| {
          assert OnlyDrops(p, i);
        }
      }
    }
  }

  lemma OverdueIff(log: seq<Attempt>, now: int, grace: int)
    requires Clocked(log + [Attempt(now, false)]) && Clocked(log)
    ensures Overdue(log + [Attempt(now, false)], grace) <==> FirstDrop(log) != 0 && now - FirstDrop(log) >= grace
  {
    var a := log + [Attempt(now, false)];
    FirstDropIsEarliest(log);
    hide FirstDrop;
    if FirstDrop(log) != 0 {
      var i :| OnlyDrops(log, i) && log[i].now == FirstDrop(log);
      assert OnlyDrops(a, i) && a[i].now == FirstDrop(log);
    }
    forall i | OnlyDrops(a, i) && i < |a| - 1 ensures OnlyDrops(log, i) && log[i].now == a[i].now {
      assert forall k :: i <= k < |log| ==> log[k] == a[k];
    }
  }

  lemma FirstDropNext(log: seq<Attempt>, now: int)
    ensures FirstDrop(log + [Attempt(now, true)]) == 0
    ensures FirstDrop(log + [Attempt(now, false)]) == if FirstDrop(log) == 0 then now else FirstDrop(log)
  {
    assert (log + [Attempt(now, false)])[..|log|] == log;
  }

  class Client {
    var buffer: seq<Frame>
    var open: bool
    var dropped: nat
    var firstDropAt: int
    const capacity: nat
    const grace: int

    /** The sends since the client was created, while it was open. */
    ghost var attempts: seq<Attempt>

    constructor (capacity: nat, grace: int)
      ensures Valid() && buffer == [] && open && attempts == [] && this.capacity == capacity && this.grace == grace
    {
      buffer, open, dropped, firstDropAt := [], true, 0, 0;
      this.capacity, this.grace := capacity, grace;
      attempts := [];
    }

    ghost predicate Valid()
      reads this
    {
      && |buffer| <= capacity
      && Clocked(attempts)
      && firstDropAt == FirstDrop(attempts)
    }

    /**
     The buffer never blocks the reader and never grows beyond its capacity. A send closes the client exactly when it
     is dropped and the buffer has stayed full for the grace period.
     */
    method Send(f: Frame, now: int) returns (ok: bool)
      requires Valid() && Clocked(attempts + [Attempt(now, false)])
      modifies this
      ensures Valid()
      ensures ok <==> old(open) && |old(buffer)| < capacity
      ensures buffer == if ok then old(buffer) + [f] else old(buffer)
      ensures attempts == if old(open) then old(attempts) + [Attempt(now, ok)] else old(attempts)
      ensures dropped == old(dropped) + if old(open) && !ok then 1 else 0
      ensures open <==> old(open) && (ok || grace <= 0 || !Overdue(attempts, grace))
    {
      if !open {
        return false;
      }
      ClockedEither(attempts, now);
      FirstDropNext(attempts, now);
      OverdueIff(attempts, now, grace);
      hide FirstDrop, Clocked, Overdue;
      if |buffer| < capacity {
        buffer := buffer + [f];
        firstDropAt := 0;
        attempts := attempts + [Attempt(now, true)];
        return true;
      }
      HandleOverflow(now);
      ok := false;
    }

    method HandleOverflow(now: int)
      modifies this`dropped, this`firstDropAt, this`open, this`attempts
      ensures dropped == old(dropped) + 1 && attempts == old(attempts) + [Attempt(now, false)]
      ensures firstDropAt == if old(firstDropAt) == 0 then now else old(firstDropAt)
      ensures open <==> old(open) && (old(firstDropAt) == 0 || grace <= 0 || now - old(firstDropAt) < grace)
    {
      attempts := attempts + [Attempt(now, false)];
      dropped := dropped + 1;
      if firstDropAt == 0 {
        firstDropAt := now;
        return;
      }
      if grace > 0 && now - firstDropAt >= grace {
        Close();
      }
    }

    method Close()
      modifies this`open
      ensures !open
    {
      open := false;
    }
  }

  lemma ClockedEither(log: seq<Attempt>, now: int)
    requires Clocked(log + [Attempt(now, false)])
    ensures Clocked(log) && Clocked(log + [Attempt(now, true)])
  {
    var a, b := log + [Attempt(now, false)], log + [Attempt(now, true)];
    assert forall i :: 0 <= i < |a| ==> a[i].now == b[i].now;
    assert forall i :: 0 <= i < |log| ==> log[i] == a[i];
  }

  /** The response of one connection. room is how many more frames can be written before the peer is gone. */
  class ResponseStream {
    var frames: seq<Frame>
    var room: nat

    constructor (room: nat)
      ensures frames == [] && this.room == room
    {
      frames, this.room := [], room;
    }

    method WriteEnvelope(f: Frame) returns (ok: bool)
      modifies this
      ensures ok <==> old(room) > 0
      ensures frames == (if ok then old(frames) + [f] else old(frames)) && room == if ok then old(room) - 1 else old(room)
    {
      if room == 0 {
        return false;
      }
      frames, room := frames + [f], room - 1;
      ok := true;
    }
  }

  lemma PrefixOfSlice(ids: seq<nat>, r: nat, n: nat, i: nat)
    requires r + n <= |ids| && 0 < i <= n
    ensures ids[r..r + n][..i] == ids[r..r + i] && ids[r..r + n][i - 1] == ids[r + i - 1]
  {
  }

  /** A page written only in part still leaves a cursor from which nothing is skipped. */
  lemma PartOfPage(log: seq<Entry>, cursor: int, count: nat, i: nat)
    requires Sorted(log) && AllTyped(log) && count > 0 && 0 < i <= |NextPage(log, cursor, count)|
    ensures var page := NextPage(log, cursor, count); After(log, cursor) == page[..i] + After(log, page[i - 1])
  {
    var r, ids, page := Rank(log, cursor), TypedIds(log), NextPage(log, cursor, count);
    PageIds(log, cursor, count);
    RankSplits(log, cursor);
    hide TypedIds, Rank, PageSize, NextPage, Above, Increasing, Sorted;
    IdsSplit(ids, r, i, cursor);
    PrefixOfSlice(ids, r, |page|, i);
  }

  lemma FramesNext(before: seq<Frame>, frames: seq<Frame>, f: Frame)
    requires before <= frames && f.Event?
    ensures Ids((frames + [f])[|before|..]) == Ids(frames[|before|..]) + [f.id]
  {
    TailIn(before, frames, f);
    IdsOfOne(f);
  }

  /** One page: it stops at the first frame that cannot be written, with the cursor at the last one that was. */
  method WritePage(events: seq<nat>, cursor: int, stream: ResponseStream) returns (replayedID: int, n: nat)
    modifies stream
    ensures n <= |events| && old(stream.frames) <= stream.frames
    ensures Ids(stream.frames[|old(stream.frames)|..]) == events[..n]
    ensures replayedID == if n == 0 then cursor else events[n - 1]
    ensures n < |events| ==> stream.room == 0
    ensures stream.room == old(stream.room) - n
  {
    replayedID, n := cursor, 0;
    ghost var before := stream.frames;
    assert stream.frames[|before|..] == [];
    while n < |events|
      invariant n <= |events| && before <= stream.frames
      invariant Ids(stream.frames[|before|..]) == events[..n]
      invariant replayedID == if n == 0 then cursor else events[n - 1]
      invariant stream.room == old(stream.room) - n
    {
      assert events[..n + 1] == events[..n] + [events[n]];
      FramesNext(before, stream.frames, Event(events[n]));
      hide Ids;
      var ok := stream.WriteEnvelope(Event(events[n]));
      if !ok {
        return;
      }
      replayedID, n := events[n], n + 1;
    }
  }

  lemma FramesAfter(a: seq<Frame>, b: seq<Frame>, c: seq<Frame>)
    requires a <= b <= c
    ensures Ids(c[|a|..]) == Ids(b[|a|..]) + Ids(c[|b|..])
  {
    IdsConcat(b[|a|..], c[|b|..]);
    assert c[|a|..] == b[|a|..] + c[|b|..];
  }

  /** What a page adds, wherever the writing stops. */
  lemma PageAccounts(log: seq<Entry>, cursor: int, count: nat, n: nat)
    requires Sorted(log) && AllTyped(log) && count > 0 && n <= |NextPage(log, cursor, count)|
    ensures var page := NextPage(log, cursor, count);
            && After(log, cursor) == page[..n] + After(log, if n == 0 then cursor else page[n - 1])
            && (page == [] ==> After(log, cursor) == [])
  {
    hide After, NextPage;
    PageSplits(log, cursor, count);
    if n > 0 {
      PartOfPage(log, cursor, count, n);
    }
  }

  /** All of w is new since from, in order, and nothing of it is beyond the cursor. */
  ghost predicate InOrder(w: seq<nat>, from: int, cursor: int) {
    Increasing(w) && from <= cursor && forall id :: id in w ==> from < id <= cursor
  }

  lemma {:induction false} RankOf(es: seq<Entry>, i: nat)
    requires i < |es|
    ensures Rank(es, es[i].id) > i
    decreases |es|
  {
    RankAbove(es, es[i].id);
    hide Rank;
    assert !(Rank(es, es[i].id) <= i < |es|);
  }

  /** Even with untyped entries a page goes on in order, and moves the cursor up the stream. */
  lemma PageMoves(log: seq<Entry>, cursor: int, count: nat, n: nat)
    requires Sorted(log) && n <= |NextPage(log, cursor, count)|
    ensures var page := NextPage(log, cursor, count);
            var next := if n == 0 then cursor else page[n - 1];
            InOrder(page[..n], cursor, next) && (n > 0 ==> Rank(log, next) > Rank(log, cursor))
  {
    PageFacts(log, cursor, count);
    var page := NextPage(log, cursor, count);
    assert forall i :: 0 <= i < n ==> page[i] in page;
    if n > 0 {
      PageFrom(log, cursor, count, page[n - 1]);
      hide NextPage, Rank, Sorted;
      forall id | id in page[..n] ensures cursor < id <= page[n - 1] {
        var i :| 0 <= i < n && page[i] == id;
      }
    }
  }

  lemma PageFrom(log: seq<Entry>, cursor: int, count: nat, id: nat)
    requires Sorted(log) && id in NextPage(log, cursor, count)
    ensures Rank(log, id) > Rank(log, cursor)
  {
    var r := Rank(log, cursor);
    var rest := log[r..];
    var page := if |rest| <= count then rest else rest[..count];
    hide Rank, TypedIds;
    TypedIncreasing(page);
    var i :| 0 <= i < |page| && page[i].id == id;
    assert log[r + i].id == id;
    RankOf(log, r + i);
  }

  lemma PageShort(log: seq<Entry>, cursor: int, count: nat)
    ensures |NextPage(log, cursor, count)| <= count
  {
    var rest := log[Rank(log, cursor)..];
    TypedShort(if |rest| <= count then rest else rest[..count]);
    hide TypedIds;
  }

  lemma {:induction false} TypedShort(es: seq<Entry>)
    ensures |TypedIds(es)| <= |es|
    decreases |es|
  {
    if es != [] {
      TypedShort(es[..|es| - 1]);
    }
  }

  /** How much history so many pages hold at most. */
  function Most(pages: nat, count: nat): (r: nat)
  {
    pages * count
  }

  lemma MostNext(pages: nat, count: nat)
    ensures Most(pages + 1, count) == Most(pages, count) + count && Most(0, count) == 0
  {
  }

  lemma InOrderNext(w: seq<nat>, page: seq<nat>, from: int, cursor: int, next: int)
    requires InOrder(w, from, cursor) && InOrder(page, cursor, next)
    ensures InOrder(w + page, from, next)
  {
    IncreasingConcat(w, page);
    hide Increasing;
  }

  /**
   The replay with nothing else running. goodReads is how many reads of history succeed, pages how many there were.
   It always ends; what it writes goes on in order from Last-Event-ID to its cursor. When every entry has a type the
   cursor and what was written account for all the history after Last-Event-ID, and unless something failed or the
   limit was reached that is all of it. It reports a failure only when the peer is gone or a read has failed: every
   read that succeeds moves the cursor.
   */
  method ReplayMissedEvents(log: seq<Entry>, lastEventId: int, count: nat, goodReads: nat, stream: ResponseStream)
    returns (replayedID: int, failed: bool, pages: nat)
    requires Sorted(log) && count > 0
    modifies stream
    ensures old(stream.frames) <= stream.frames
    ensures lastEventId == NO_ID ==> replayedID == NO_ID && stream.frames == old(stream.frames)
    ensures var written := Ids(stream.frames[|old(stream.frames)|..]);
            && InOrder(written, lastEventId, replayedID)
            && (lastEventId != NO_ID && AllTyped(log) ==> written + After(log, replayedID) == After(log, lastEventId))
            && (lastEventId != NO_ID && AllTyped(log) && !failed && |written| < MAX_REPLAYED_EVENTS ==>
                  After(log, replayedID) == [])
    ensures lastEventId != NO_ID && failed ==> stream.room == 0 || goodReads <= |log|
    ensures pages <= goodReads && (lastEventId != NO_ID && goodReads == 0 ==> failed)
    ensures var n := |Ids(stream.frames[|old(stream.frames)|..])|; n <= Most(pages, count) && n < MAX_REPLAYED_EVENTS + count
  {
    MostNext(0, count);
    hide Sorted, AllTyped, After, NextPage, Rank, Most;
    replayedID, failed, pages := lastEventId, false, 0;
    ghost var before := stream.frames;
    assert stream.frames[|before|..] == [] && Ids([]) == [];
    assert InOrder([], lastEventId, replayedID);
    if lastEventId == NO_ID {
      return;
    }
    hide Ids, InOrder;
    var left, total, done := goodReads, 0, false;
    while !done
      invariant before <= stream.frames && total == |Ids(stream.frames[|before|..])|
      invariant InOrder(Ids(stream.frames[|before|..]), lastEventId, replayedID)
      invariant AllTyped(log) ==> Ids(stream.frames[|before|..]) + After(log, replayedID) == After(log, lastEventId)
      invariant !done ==> left + Rank(log, replayedID) >= goodReads
      invariant left >= 0 && left + pages == goodReads && total <= Most(pages, count) && (pages == 0 ==> !done)
      invariant total < MAX_REPLAYED_EVENTS + count && (!done ==> total < MAX_REPLAYED_EVENTS)
      invariant failed ==> done && stream.room == 0
      invariant AllTyped(log) && done && !failed && total < MAX_REPLAYED_EVENTS ==> After(log, replayedID) == []
      decreases !done, |log| - Rank(log, replayedID)
    {
      if left == 0 {
        return replayedID, true, pages;
      }
      MostNext(pages, count);
      left, pages := left - 1, pages + 1;
      var events := NextPage(log, replayedID, count);
      PageShort(log, replayedID, count);
      if |events| == 0 {
        if AllTyped(log) {
          PageAccounts(log, replayedID, count, 0);
        }
        done := true;
      } else {
        ghost var frames, w := stream.frames, Ids(stream.frames[|before|..]);
        var cursor, n := WritePage(events, replayedID, stream);
        if AllTyped(log) {
          PageAccounts(log, replayedID, count, n);
          Assoc(w, events[..n], After(log, cursor));
        }
        PageMoves(log, replayedID, count, n);
        InOrderNext(w, events[..n], lastEventId, replayedID, cursor);
        FramesAfter(before, frames, stream.frames);
        replayedID, total := cursor, total + n;
        failed := n < |events|;
        done := failed || total >= MAX_REPLAYED_EVENTS;
      }
    }
  }

  /** The drain before closing: what is left in the buffer and was not in the replay, in order, until a write fails. */
  method Drain(client: Client, last: int, stream: ResponseStream)
    requires client.Valid()
    modifies client`buffer, stream
    ensures client.Valid() && old(stream.frames) <= stream.frames
    ensures Ids(stream.frames[|old(stream.frames)|..]) + Above(Ids(client.buffer), last) == Above(Ids(old(client.buffer)), last)
         || stream.room == 0
    ensures stream.room > 0 ==> client.buffer == []
  {
    ghost var before, queued := stream.frames, client.buffer;
    assert stream.frames[|before|..] == [] && Ids([]) == [];
    while client.buffer != []
      invariant client.Valid() && before <= stream.frames
      invariant Ids(stream.frames[|before|..]) + Above(Ids(client.buffer), last) == Above(Ids(queued), last)
      decreases |client.buffer|
    {
      var f := client.buffer[0];
      DrainNext(client.buffer, before, stream.frames, last);
      hide Ids, Above, Clocked, FirstDrop;
      client.buffer := client.buffer[1..];
      if !SkipReplayed(f, last) {
        var ok := stream.WriteEnvelope(f);
        if !ok {
          return;
        }
      }
    }
  }

  lemma DrainNext(buffer: seq<Frame>, before: seq<Frame>, frames: seq<Frame>, last: int)
    requires buffer != [] && before <= frames
    ensures var f, rest := buffer[0], buffer[1..];
            && (SkipReplayed(f, last) ==> Above(Ids(rest), last) == Above(Ids(buffer), last))
            && (!SkipReplayed(f, last) ==>
                  Ids((frames + [f])[|before|..]) + Above(Ids(rest), last)
                  == Ids(frames[|before|..]) + Above(Ids(buffer), last))
  {
    var f, rest := buffer[0], buffer[1..];
    HeadOut(buffer, last);
    TailIn(before, frames, f);
    hide Ids, Above;
    NoLeft(Above(Ids(rest), last));
    Assoc(Ids(frames[|before|..]), Ids([f]), Above(Ids(rest), last));
  }

  lemma HeadOut(buffer: seq<Frame>, last: int)
    requires buffer != []
    ensures var f := buffer[0];
            Above(Ids(buffer), last) == (if SkipReplayed(f, last) then [] else Ids([f])) + Above(Ids(buffer[1..]), last)
  {
    assert buffer == [buffer[0]] + buffer[1..];
    IdsConcat([buffer[0]], buffer[1..]);
    hide Ids, Above;
    AboveConcat(Ids([buffer[0]]), Ids(buffer[1..]), last);
    AboveFrame(buffer[0], last);
  }

  lemma TailIn(before: seq<Frame>, frames: seq<Frame>, f: Frame)
    requires before <= frames
    ensures Ids((frames + [f])[|before|..]) == Ids(frames[|before|..]) + Ids([f])
  {
    IdsConcat(frames[|before|..], [f]);
    hide Ids;
    assert (frames + [f])[|before|..] == frames[|before|..] + [f];
  }
}
