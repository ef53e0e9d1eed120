/**
 One notification stream and one connection to it, as atomic steps: the producer, the reader that follows the stream
 for the user's tabs, the bounded buffer between reader and connection, and the handler that first replays history
 page by page and then delivers what the buffer holds.
 A stream id is a number here: only the order of ids is ever used.
 */
module SseStream {

  const MAX_REPLAYED_EVENTS := 1000

  /** An entry without a type cannot become a frame and is dropped by every read. */
  datatype Entry = Entry(id: nat, typed: bool)

  datatype Frame = Event(id: nat) | Notice

  /** The reader's cursor. "$" stands for the end of the stream at the moment the read begins. */
  datatype Reader =
    | Dollar
    | Blocked(pos: nat)
    | At(pos: nat)

  /** NO_ID stands for an absent Last-Event-ID. */
  const NO_ID: int := -1

  datatype Phase =
    | Replaying(cursor: int, page: seq<nat>, total: nat)
    | Live(last: int)
    | Closed

  datatype State = State(
    log: seq<Entry>,       // everything ever appended
    trimmed: nat,          // how much of it MAXLEN has removed
    reader: Reader,
    batch: seq<nat>,       // read and not dispatched yet
    buffer: seq<Frame>,
    capacity: nat,
    open: bool,
    phase: Phase,
    written: seq<Frame>,
    // What the proofs look back on: the ids the reader has read since the connection was registered and the position
    // it started from, what the replay wrote and how long the log was when it ended, and whether anything went wrong.
    sent: seq<nat>,
    base: nat,
    replayed: seq<nat>,
    history: nat,
    flawed: bool)

  datatype Step =
    | Append(e: Entry)
    | Trim(n: nat)
    | StartRead
    | PollEmpty
    | ReadFails
    | ReadBatch(n: nat)
    | Dispatch
    | Broadcast
    | Close
    | ReadPage(count: nat)
    | PageFails
    | WritePage(ok: bool)
    | Truncate
    | Deliver(ok: bool)
    | Finish

  function TypedIds(es: seq<Entry>): seq<nat> {
    if es == [] then []
    else
      var p, e := TypedIds(es[..|es| - 1]), es[|es| - 1];
      if e.typed then p + [e.id] else p
  }

  function Ids(frames: seq<Frame>): seq<nat> {
    if frames == [] then []
    else
      var p, f := Ids(frames[..|frames| - 1]), frames[|frames| - 1];
      if f.Event? then p + [f.id] else p
  }

  function Above(ids: seq<nat>, x: int): seq<nat> {
    if ids == [] then []
    else
      var p, id := Above(ids[..|ids| - 1], x), ids[|ids| - 1];
      if id > x then p + [id] else p
  }

  /** How many leading entries have ids up to x: XRANGE (x + starts after them. */
  function Rank(es: seq<Entry>, x: int): (r: nat)
    ensures r <= |es|
  {
    if es == [] then 0
    else if es[|es| - 1].id <= x then |es|
    else Rank(es[..|es| - 1], x)
  }

  function Visible(s: State): seq<Entry> {
    if s.trimmed <= |s.log| then s.log[s.trimmed..] else []
  }

  /** XADD gives a fresh entry an id above all before it. */
  predicate Fresh(log: seq<Entry>, e: Entry) {
    log == [] || log[|log| - 1].id < e.id
  }

  function DoAppend(s: State, e: Entry): State {
    if Fresh(s.log, e) then s.(log := s.log + [e]) else s
  }

  function DoTrim(s: State, n: nat): State {
    s.(trimmed := if n > s.trimmed then n else s.trimmed, flawed := true)
  }

  function DoStartRead(s: State): State {
    if s.reader == Dollar then s.(reader := Blocked(|s.log|), base := |s.log|) else s
  }

  /** A poll that times out, or fails, while the cursor is still "$" leaves it "$". */
  function DoPollEmpty(s: State): State {
    if s.reader == Blocked(|s.log|) then s.(reader := Dollar) else s
  }

  function DoReadFails(s: State): State {
    if s.reader.Blocked? then s.(reader := Dollar) else s
  }

  /** The cursor moves to the last typed entry of a batch, so a batch without one leaves it where it was. */
  function DoReadBatch(s: State, n: nat): State {
    if s.reader == Dollar || s.batch != [] then s
    else
      var from := if s.reader.pos < s.trimmed then s.trimmed else s.reader.pos;
      if n == 0 || |s.log| - from < n then s
      else
        var ids := TypedIds(s.log[from..from + n]);
        if ids == [] then s.(reader := if s.reader.Blocked? then Dollar else s.reader)
        else s.(reader := At(from + LastTyped(s.log[from..from + n])), batch := ids, sent := s.sent + ids)
  }

  /** The position just after the last typed entry. */
  function LastTyped(es: seq<Entry>): (r: nat)
    ensures r <= |es|
  {
    if es == [] then 0 else if es[|es| - 1].typed then |es| else LastTyped(es[..|es| - 1])
  }

  /** Send never waits: with the buffer full or the connection closed the event is dropped. */
  function DoDispatch(s: State): State {
    if s.batch == [] then s
    else if s.open && |s.buffer| < s.capacity then s.(batch := s.batch[1..], buffer := s.buffer + [Event(s.batch[0])])
    else s.(batch := s.batch[1..], flawed := true)
  }

  function DoBroadcast(s: State): State {
    if s.open && |s.buffer| < s.capacity then s.(buffer := s.buffer + [Notice]) else s
  }

  function GoLive(s: State, cursor: int): State {
    s.(phase := Live(cursor), replayed := Ids(s.written), history := |s.log|)
  }

  /** XRANGE (cursor + COUNT count, without the untyped entries. */
  function NextPage(es: seq<Entry>, cursor: int, count: nat): seq<nat> {
    var rest := es[Rank(es, cursor)..];
    TypedIds(if |rest| <= count then rest else rest[..count])
  }

  /** The next page of history; an empty one ends the replay. */
  function DoReadPage(s: State, count: nat): State {
    match s.phase
    case Replaying(cursor, page, total) =>
      if page != [] || count == 0 || total >= MAX_REPLAYED_EVENTS then s
      else
        var ids := NextPage(Visible(s), cursor, count);
        if ids == [] then GoLive(s, cursor) else s.(phase := Replaying(cursor, ids, total))
    case _ => s
  }

  function DoPageFails(s: State): State {
    if s.phase.Replaying? && s.phase.page == [] then GoLive(s, s.phase.cursor).(flawed := true) else s
  }

  function DoWritePage(s: State, ok: bool): State {
    match s.phase
    case Replaying(cursor, page, total) =>
      if page == [] then s
      else if ok then
        s.(phase := Replaying(page[0], page[1..], total + 1), written := s.written + [Event(page[0])])
      else GoLive(s, cursor).(flawed := true)
    case _ => s
  }

  function DoTruncate(s: State): State {
    if s.phase.Replaying? && s.phase.page == [] && s.phase.total >= MAX_REPLAYED_EVENTS then
      GoLive(s, s.phase.cursor).(flawed := true)
    else s
  }

  /** An event that history has already shown is skipped; one without an id never is. */
  predicate SkipReplayed(f: Frame, last: int) {
    f.Event? && f.id <= last
  }

  function DoDeliver(s: State, ok: bool): State {
    match s.phase
    case Live(last) =>
      if s.buffer == [] then s
      else if SkipReplayed(s.buffer[0], last) then s.(buffer := s.buffer[1..])
      else if ok then s.(buffer := s.buffer[1..], written := s.written + [s.buffer[0]])
      else s.(phase := Closed, flawed := true)
    case _ => s
  }

  /** The drain on shutdown ends when the buffer is empty. */
  function DoFinish(s: State): State {
    if s.phase.Live? && !s.open && s.buffer == [] then s.(phase := Closed) else s
  }

  function Next(s: State, step: Step): State {
    match step
    case Append(e) => DoAppend(s, e)
    case Trim(n) => DoTrim(s, n)
    case StartRead => DoStartRead(s)
    case PollEmpty => DoPollEmpty(s)
    case ReadFails => DoReadFails(s)
    case ReadBatch(n) => DoReadBatch(s, n)
    case Dispatch => DoDispatch(s)
    case Broadcast => DoBroadcast(s)
    case Close => s.(open := false)
    case ReadPage(count) => DoReadPage(s, count)
    case PageFails => DoPageFails(s)
    case WritePage(ok) => DoWritePage(s, ok)
    case Truncate => DoTruncate(s)
    case Deliver(ok) => DoDeliver(s, ok)
    case Finish => DoFinish(s)
  }

  function Exec(s: State, steps: seq<Step>): State {
    if steps == [] then s else Next(Exec(s, steps[..|steps| - 1]), steps[|steps| - 1])
  }

  ghost predicate Increasing(ids: seq<nat>) {
    forall i, j :: 0 <= i < j < |ids| ==> ids[i] < ids[j]
  }

  ghost predicate Sorted(es: seq<Entry>) {
    forall i, j :: 0 <= i < j < |es| ==> es[i].id < es[j].id
  }

  /**
   A connection just registered, whose header gave lastEventId. The reader may be new, or long at work for other tabs
   and in the middle of dispatching the entries from position first on.
   */
  function Registered(log: seq<Entry>, reader: Reader, first: nat, lastEventId: int, capacity: nat): State
    requires reader.At? ==> first <= reader.pos <= |log|
  {
    var batch := if reader.At? then TypedIds(log[first..reader.pos]) else [];
    var base := match reader case Dollar => |log| case Blocked(pos) => pos case At(_) => first;
    State(log, 0, reader, batch, [], capacity, true,
          if lastEventId == NO_ID then Live(NO_ID) else Replaying(lastEventId, [], 0),
          [], batch, base, [], 0, false)
  }

  predicate CanRegister(log: seq<Entry>, reader: Reader, first: nat, lastEventId: int) {
    && (forall i, j :: 0 <= i < j < |log| ==> log[i].id < log[j].id)
    && (reader.Blocked? ==> reader.pos <= |log|)
    && (reader.At? ==> first <= reader.pos <= |log|)
    && lastEventId >= NO_ID
  }

  /** What some steps do, by name, for proofs that leave Next hidden. */
  lemma StepIs(s: State, step: Step)
    ensures step.Append? ==> Next(s, step) == DoAppend(s, step.e)
    ensures step.ReadBatch? ==> Next(s, step) == DoReadBatch(s, step.n)
    ensures step.Dispatch? ==> Next(s, step) == DoDispatch(s)
    ensures step.Broadcast? ==> Next(s, step) == DoBroadcast(s)
    ensures step.ReadPage? ==> Next(s, step) == DoReadPage(s, step.count)
    ensures step.WritePage? ==> Next(s, step) == DoWritePage(s, step.ok)
    ensures step.Deliver? ==> Next(s, step) == DoDeliver(s, step.ok)
  {
    hide DoAppend, DoTrim, DoStartRead, DoPollEmpty, DoReadFails, DoReadBatch, DoDispatch, DoBroadcast, DoReadPage,
         DoPageFails, DoWritePage, DoTruncate, DoDeliver, DoFinish;
  }
}
