/** What a client that joins is sent: over every run, nothing this replica accepted can be missed. */
module YjsJoin {
  import opened Basics
  import opened Sequences
  import opened SaveQueue
  import opened TaskStreams
  import opened YjsRoom
  import opened YjsFifo

  // Progress of the pipe.

  /** Acceptance and the streams only ever grow, and so does the part of the acceptance order that is written. */
  ghost predicate Grows(p: Pipe, q: Pipe) {
    forall k :: KeyGrows(p, q, k)
  }

  ghost predicate KeyGrows(p: Pipe, q: Pipe, k: TaskKey) {
    && At(p.accepted, k) <= At(q.accepted, k)
    && At(p.log, k) <= At(q.log, k)
    && Written(At(p.log, k)) <= Written(At(q.log, k))
  }

  lemma AppendGrows(p: Pipe, k: TaskKey, e: Entry)
    requires e.Own? ==> Written(At(p.log, k)) <= e.item.no + 1
    ensures Grows(p, p.AppendTo(k, e))
  {
    OwnNosNext(At(p.log, k), e);
    hide OwnNos;
  }

  lemma AppendOneGrows(p: Pipe, reply: Reply)
    requires Inv(p)
    ensures Grows(p, p.AppendOne(reply))
  {
    hide Inv, Fifo, Queue.WellFormed, Written, Grows;
    var q := p.AppendOne(reply);
    if !p.flusher.Appending? || p.flusher.done >= |p.flusher.batch| || reply == Refused {
      SameGrows(p, q);
    } else {
      var key, batch, done := p.flusher.key, p.flusher.batch, p.flusher.done;
      KeyFacts(p, key);
      assert batch[done] == p.queue.Items(key)[done];
      NextNo(At(p.accepted, key), p.queue.Items(key), At(p.log, key), done);
      var r := p.AppendTo(key, Own(batch[done]));
      AppendGrows(p, key, Own(batch[done]));
      GrowsSame(p, r, q);
    }
  }

  lemma GrowsSame(p: Pipe, r: Pipe, q: Pipe)
    requires Grows(p, r) && q.accepted == r.accepted && q.log == r.log
    ensures Grows(p, q)
  {
    hide Written;
    forall k ensures KeyGrows(p, q, k) {
      assert KeyGrows(p, r, k);
    }
  }

  lemma NextGrows(s: State, step: Step)
    requires Inv(s.pipe)
    ensures Grows(s.pipe, Next(s, step).pipe)
  {
    hide Inv, Pipe.Accept, Pipe.AppendOne, Pipe.AppendTo, Pipe.Commit, Pipe.TakeBatch, Grows, Written, Inbox, Visible;
    SameGrows(s.pipe, s.pipe);
    match step
    case Update(author, k, d) => AcceptGrows(s.pipe, k, Item(|At(s.pipe.accepted, k)|, author, d));
    case AppendOne(reply) => AppendOneGrows(s.pipe, reply);
    case OtherAppend(k, d) => AppendGrows(s.pipe, k, Other(d));
    case Seed(k, d) => AppendGrows(s.pipe, k, Other(d));
    case CompactAppend(k, d) => AppendGrows(s.pipe, k, Other(d));
    case TakeBatch(k) => QuietGrows(s.pipe, k, s.batchSize);
    case Commit => QuietGrows(s.pipe, TaskKey(""), s.batchSize);
    case _ => SamePipe(s, step);
  }

  lemma QuietGrows(p: Pipe, k: TaskKey, batchSize: nat)
    ensures Grows(p, p.TakeBatch(k, batchSize)) && Grows(p, p.Commit())
  {
    SameGrows(p, p.TakeBatch(k, batchSize));
    SameGrows(p, p.Commit());
    hide Grows;
  }

  lemma SamePipe(s: State, step: Step)
    ensures !step.Update? && (IsPipeStep(step) ==> step.CompactTrim?) ==> Next(s, step).pipe == s.pipe
  {
    StepFrame(s, step);
    hide Next;
  }

  lemma AcceptGrows(p: Pipe, k: TaskKey, item: Item)
    ensures Grows(p, p.Accept(k, item))
  {
  }

  lemma SameGrows(p: Pipe, q: Pipe)
    requires q.accepted == p.accepted && q.log == p.log
    ensures Grows(p, q)
  {
  }

  // The yjs.init jobs.

  /** queued is the part of the acceptance order that was waiting when at deltas had been accepted. */
  ghost predicate Snapshot(acc: seq<Item>, at: nat, queued: seq<Item>) {
    |queued| <= at <= |acc| && queued == acc[at - |queued|..at]
  }

  ghost predicate PhaseOk(acc: seq<Item>, written: nat, phase: Phase) {
    match phase
    case HasPending(at, queued) => Snapshot(acc, at, queued) && at - |queued| <= written
    case Reseeding(at, queued, from) =>
      Snapshot(acc, at, queued) && at - |queued| <= written && ReadOk(acc, at, queued, from, [])
    case Loaded(at, queued, from, entries) => Snapshot(acc, at, queued) && ReadOk(acc, at, queued, from, entries)
    case Sent(at, queued, from, entries) => Snapshot(acc, at, queued) && ReadOk(acc, at, queued, from, entries)
    case _ => true
  }

  /** A stream that was read whole holds at least what had left the queue when the queue was read. */
  ghost predicate ReadOk(acc: seq<Item>, at: nat, queued: seq<Item>, from: nat, entries: seq<Entry>) {
    from == 0 ==> IsLogOf(entries, acc) && at - |queued| <= Written(entries)
  }

  lemma PhaseStays(acc: seq<Item>, written: nat, acc': seq<Item>, written': nat, phase: Phase)
    requires PhaseOk(acc, written, phase) && acc <= acc' && written <= written'
    ensures PhaseOk(acc', written', phase)
  {
    hide Written, OwnNos, IsStutter, IsLogOf, Snapshot;
    if phase.HasPending? || phase.Reseeding? || phase.Loaded? || phase.Sent? {
      SnapshotStays(acc, acc', phase.at, phase.queued);
    }
    if (phase.Loaded? || phase.Sent? || phase.Reseeding?) && phase.from == 0 {
      LogStays(if phase.Reseeding? then [] else phase.entries, acc, acc');
    }
  }

  lemma SnapshotStays(acc: seq<Item>, acc': seq<Item>, at: nat, queued: seq<Item>)
    requires Snapshot(acc, at, queued) && acc <= acc'
    ensures Snapshot(acc', at, queued)
  {
    assert acc'[at - |queued|..at] == acc[at - |queued|..at];
  }

  lemma LogStays(entries: seq<Entry>, acc: seq<Item>, acc': seq<Item>)
    requires IsLogOf(entries, acc) && acc <= acc'
    ensures IsLogOf(entries, acc')
  {
    hide Written, OwnNos, IsStutter;
  }

  function SeenAt(phase: Phase): nat {
    match phase
    case HasPending(at, _) => at
    case Reseeding(at, _, _) => at
    case Loaded(at, _, _, _) => at
    case Sent(at, _, _, _) => at
    case _ => 0
  }

  /** The job's client registered before the queue was read, and a finished job's list is in its inbox. */
  ghost predicate JobOk(s: State, job: Job) {
    && PhaseOk(At(s.pipe.accepted, job.key), Written(At(s.pipe.log, job.key)), job.phase)
    && job.client in s.joined
    && |At(s.joined[job.client], job.key)| <= |At(s.pipe.accepted, job.key)|
    && (!job.phase.Started? && !job.phase.Failed? ==> |At(s.joined[job.client], job.key)| <= SeenAt(job.phase))
    && (job.phase.Sent? ==>
          Init(job.key, DataOf(job.phase.entries) + DeltasOf(job.phase.queued)) in Inbox(s, job.client))
  }

  ghost predicate JobsInv(s: State) {
    && s.clients <= s.joined.Keys
    && (forall j :: j in s.jobs ==> JobOk(s, s.jobs[j]))
    && (forall c, k :: c in s.joined ==> |At(s.joined[c], k)| <= |At(s.pipe.accepted, k)|)
  }

  /** What a reader can rely on: the queue is the end of the acceptance order, and the rest is written. */
  lemma KeySplit(p: Pipe, k: TaskKey)
    requires Inv(p)
    ensures Snapshot(At(p.accepted, k), |At(p.accepted, k)|, p.queue.Items(k))
    ensures |At(p.accepted, k)| - |p.queue.Items(k)| <= Written(At(p.log, k))
    ensures IsLogOf(At(p.log, k), At(p.accepted, k))
  {
    hide IsLogOf, Queue.WellFormed, Inv, Written, Fifo, Snapshot, Batched, InFlight;
    KeyFacts(p, k);
    FifoSplit(At(p.accepted, k), p.queue.Items(k), At(p.log, k), InFlight(p.flusher, k));
  }

  lemma FifoSplit(acc: seq<Item>, items: seq<Item>, log: seq<Entry>, inFlight: nat)
    requires Fifo(acc, items, log, inFlight)
    ensures Snapshot(acc, |acc|, items) && |acc| - |items| <= Written(log) && IsLogOf(log, acc)
  {
    hide IsLogOf, Written, Numbered;
    assert acc[|acc| - |items|..|acc|] == acc[|acc| - |items|..];
  }

  lemma ReadStreamOk(s: State, k: TaskKey, at: nat, queued: seq<Item>)
    requires Inv(s.pipe)
    requires PhaseOk(At(s.pipe.accepted, k), Written(At(s.pipe.log, k)), HasPending(at, queued))
    ensures PhaseOk(At(s.pipe.accepted, k), Written(At(s.pipe.log, k)), Loaded(at, queued, Trimmed(s, k), Visible(s, k)))
  {
    hide IsLogOf, Inv, Written, Snapshot;
    KeySplit(s.pipe, k);
    if Trimmed(s, k) == 0 {
      assert Visible(s, k) == At(s.pipe.log, k);
    }
  }

  /** Inboxes and registrations are only added to. */
  ghost predicate Outward(s: State, t: State) {
    && (forall c, m :: m in Inbox(s, c) ==> m in Inbox(t, c))
    && (forall c :: c in s.joined ==> c in t.joined && t.joined[c] == s.joined[c])
  }

  lemma PostOutward(s: State, c: Client, m: Message)
    ensures Outward(s, Post(s, c, m)) && m in Inbox(Post(s, c, m), c)
  {
  }

  lemma SameOutward(s: State, t: State)
    requires t.inbox == s.inbox && t.joined == s.joined
    ensures Outward(s, t)
  {
  }

  lemma NextOutward(s: State, step: Step)
    ensures Outward(s, Next(s, step))
  {
    StepIs(s, step);
    StepFrame(s, step);
    hide Next;
    match step
    case Update(author, k, d) => UpdateOutward(s, author, k, d); hide Outward;
    case SendAck(sent) => SendAckOutward(s, sent); hide Outward;
    case SendInit(j, sent) => SendInitOutward(s, j, sent); hide Outward;
    case FanOut(slow) => FanOutOutward(s, slow); hide Outward;
    case Register(_, _, _, _) =>
    case _ => SameOutward(s, Next(s, step)); hide Outward;
  }

  lemma UpdateOutward(s: State, author: Client, k: TaskKey, d: Delta)
    ensures Outward(s, DoUpdate(s, author, k, d))
  {
    PostOutward(s, author, SyncFailed(k));
  }

  lemma SendAckOutward(s: State, sent: bool)
    ensures Outward(s, DoSendAck(s, sent))
  {
    if s.run.Acking? {
      PostOutward(s.(run := FanningOut(s.run.key, s.run.item)), s.run.item.author, Ack(s.run.key, s.run.item));
    }
  }

  lemma FanOutOutward(s: State, slow: set<Client>)
    ensures Outward(s, DoFanOut(s, slow))
  {
  }

  lemma SendInitOutward(s: State, j: nat, sent: bool)
    ensures Outward(s, DoSendInit(s, j, sent))
  {
    hide DataOf, DeltasOf;
    if j in s.jobs && s.jobs[j].phase.Loaded? {
      var Job(c, k, phase) := s.jobs[j];
      var Loaded(at, queued, from, entries) := phase;
      PostOutward(SetPhase(s, j, Sent(at, queued, from, entries)), c, Init(k, DataOf(entries) + DeltasOf(queued)));
    }
  }

  lemma JoinedStays(s: State, t: State, c: Client, k: TaskKey)
    requires JobsInv(s) && KeyGrows(s.pipe, t.pipe, k) && Outward(s, t) && c in s.joined
    ensures |At(t.joined[c], k)| <= |At(t.pipe.accepted, k)|
  {
    hide JobOk, Written, Inbox;
  }

  lemma JobsStay(s: State, t: State)
    requires JobsInv(s) && Grows(s.pipe, t.pipe) && Outward(s, t)
    ensures forall j :: j in s.jobs ==> JobOk(t, s.jobs[j])
    ensures forall c, k :: c in s.joined ==> |At(t.joined[c], k)| <= |At(t.pipe.accepted, k)|
  {
    hide PhaseOk, Written, Inbox;
    forall j | j in s.jobs ensures JobOk(t, s.jobs[j]) {
      var k := s.jobs[j].key;
      assert JobOk(s, s.jobs[j]) && KeyGrows(s.pipe, t.pipe, k);
      PhaseStays(At(s.pipe.accepted, k), Written(At(s.pipe.log, k)), At(t.pipe.accepted, k), Written(At(t.pipe.log, k)),
                 s.jobs[j].phase);
    }
    forall c, k | c in s.joined ensures |At(t.joined[c], k)| <= |At(t.pipe.accepted, k)| {
      JoinedStays(s, t, c, k);
    }
  }

  /** Whatever a job reads next, it keeps what its list needs. */
  lemma JobAdvances(s: State, j: nat)
    requires Inv(s.pipe) && j in s.jobs && JobOk(s, s.jobs[j])
    ensures var t := DoReadPending(s, j); j in t.jobs && JobOk(t, t.jobs[j])
    ensures var t := DoReadStream(s, j); j in t.jobs && JobOk(t, t.jobs[j])
    ensures var t := DoReadFails(s, j); j in t.jobs && JobOk(t, t.jobs[j])
    ensures forall ok :: var t := DoReadAgain(s, j, ok); j in t.jobs && JobOk(t, t.jobs[j])
  {
    ReadPendingOk(s, j);
    ReadOnceOk(s, j);
    ReadFailsOk(s, j);
    forall ok ensures var t := DoReadAgain(s, j, ok); j in t.jobs && JobOk(t, t.jobs[j]) {
      ReadAgainOk(s, j, ok);
    }
    hide DoReadPending, DoReadStream, DoReadFails, DoReadAgain, JobOk, Inv;
  }

  lemma ReadPendingOk(s: State, j: nat)
    requires Inv(s.pipe) && j in s.jobs && JobOk(s, s.jobs[j])
    ensures var t := DoReadPending(s, j); j in t.jobs && JobOk(t, t.jobs[j])
  {
    KeySplit(s.pipe, s.jobs[j].key);
    hide IsLogOf, Inv, Written, DataOf, DeltasOf, Inbox;
  }

  lemma ReadOnceOk(s: State, j: nat)
    requires Inv(s.pipe) && j in s.jobs && JobOk(s, s.jobs[j])
    ensures var t := DoReadStream(s, j); j in t.jobs && JobOk(t, t.jobs[j])
  {
    hide IsLogOf, Inv, Written, DataOf, DeltasOf, Inbox;
    match s.jobs[j].phase
    case HasPending(at, queued) => ReadStreamOk(s, s.jobs[j].key, at, queued);
    case _ =>
  }

  lemma ReadFailsOk(s: State, j: nat)
    requires j in s.jobs && JobOk(s, s.jobs[j])
    ensures var t := DoReadFails(s, j); j in t.jobs && JobOk(t, t.jobs[j])
  {
    hide IsLogOf, Written, DataOf, DeltasOf, Inbox;
  }

  lemma ReadAgainOk(s: State, j: nat, ok: bool)
    requires Inv(s.pipe) && j in s.jobs && JobOk(s, s.jobs[j])
    ensures var t := DoReadAgain(s, j, ok); j in t.jobs && JobOk(t, t.jobs[j])
  {
    hide IsLogOf, Inv, Written, DataOf, DeltasOf, Inbox;
    match s.jobs[j].phase
    case Reseeding(at, queued, _) => ReadStreamOk(s, s.jobs[j].key, at, queued);
    case _ =>
  }

  lemma SendInitOk(s: State, j: nat, sent: bool)
    requires j in s.jobs && JobOk(s, s.jobs[j])
    ensures var t := DoSendInit(s, j, sent); j in t.jobs && JobOk(t, t.jobs[j])
  {
    hide Snapshot, ReadOk, DataOf, DeltasOf, Written;
    if s.jobs[j].phase.Loaded? {
      var Job(c, k, phase) := s.jobs[j];
      var Loaded(at, queued, from, entries) := phase;
      PostOutward(SetPhase(s, j, Sent(at, queued, from, entries)), c, Init(k, DataOf(entries) + DeltasOf(queued)));
    }
  }

  function JobOf(step: Step): set<nat> {
    match step
    case ReadPending(j) => {j}
    case ReadStream(j) => {j}
    case ReadFails(j) => {j}
    case ReadAgain(j, _) => {j}
    case SendInit(j, _) => {j}
    case Register(_, _, _, j) => {j}
    case StartInit(_, _, j) => {j}
    case _ => {}
  }

  /** A step changes no job but its own. */
  lemma OtherJobsSame(s: State, step: Step)
    ensures forall j :: j in Next(s, step).jobs && j !in JobOf(step) ==> j in s.jobs && Next(s, step).jobs[j] == s.jobs[j]
  {
    StepIs(s, step);
    StepFrame(s, step);
    if step.Leave? {
      DoorStepFrame(s, step);
    }
    hide Next, Visible, Trimmed, DataOf, DeltasOf, Inbox, DoUpdate, DoSendAck, DoFanOut, DoEvictSlow;
  }

  lemma OwnJobOk(s: State, step: Step, t: State, j: nat)
    requires Inv(s.pipe) && JobsInv(s) && t == Next(s, step) && j in JobOf(step) && j in t.jobs
    ensures JobOk(t, t.jobs[j])
  {
    assert j in s.jobs ==> JobOk(s, s.jobs[j]);
    StepIs(s, step);
    hide Next, JobOk, JobsInv, Inv, Inbox, Visible, Trimmed, DataOf, DeltasOf;
    match step
    case SendInit(_, sent) =>
      SendInitOk(s, j, sent);
    case Register(c, displaced, k, _) =>
      RegisterOk(s, c, displaced, k, j);
    case StartInit(c, k, _) =>
      StartInitOk(s, c, k, j);
    case _ =>
      JobAdvances(s, j);
  }

  lemma RegisterOk(s: State, c: Client, displaced: set<Client>, k: TaskKey, j: nat)
    requires JobsInv(s)
    ensures var t := DoRegister(s, c, displaced, k, j); j in t.jobs ==> JobOk(t, t.jobs[j])
  {
    hide Written;
  }

  lemma StartInitOk(s: State, c: Client, k: TaskKey, j: nat)
    requires JobsInv(s)
    ensures var t := DoStartInit(s, c, k, j); j in t.jobs ==> JobOk(t, t.jobs[j])
  {
    hide Written;
  }

  lemma ClientsJoined(s: State, step: Step)
    requires JobsInv(s)
    ensures Next(s, step).clients <= Next(s, step).joined.Keys
    ensures forall c, k :: c in Next(s, step).joined && c !in s.joined ==>
              |At(Next(s, step).joined[c], k)| <= |At(Next(s, step).pipe.accepted, k)|
  {
    StepFrame(s, step);
    hide Next, JobOk;
  }

  lemma JobsKeep(s: State, step: Step)
    requires Inv(s.pipe) && JobsInv(s)
    ensures JobsInv(Next(s, step))
  {
    hide Next, Inv, JobOk, Grows, Outward;
    var t := Next(s, step);
    NextGrows(s, step);
    NextOutward(s, step);
    JobsStay(s, t);
    OtherJobsSame(s, step);
    ClientsJoined(s, step);
    forall j | j in t.jobs ensures JobOk(t, t.jobs[j]) {
      if j in JobOf(step) {
        OwnJobOk(s, step, t, j);
      }
    }
  }

  lemma {:induction false} JobsHold(maxSize: nat, batchSize: nat, history: map<TaskKey, seq<Delta>>, steps: seq<Step>)
    ensures JobsInv(Exec(Fresh(maxSize, batchSize, history), steps))
    decreases |steps|
  {
    if steps != [] {
      hide JobsInv, Inv, Next;
      JobsHold(maxSize, batchSize, history, steps[..|steps| - 1]);
      DurableFifo(maxSize, batchSize, history, steps[..|steps| - 1]);
      JobsKeep(Exec(Fresh(maxSize, batchSize, history), steps[..|steps| - 1]), steps[|steps| - 1]);
    }
  }

  function Nos(items: seq<Item>): (r: seq<nat>)
    ensures |r| == |items| && forall i :: 0 <= i < |r| ==> r[i] == items[i].no
  {
    seq(|items|, i requires 0 <= i < |items| => items[i].no)
  }

  /**
   Join completeness. In every run, a finished yjs.init whose stream read was not cut short by a trim lists, once
   repeats are dropped, the accepted deltas 0, 1, 2, ... in acceptance order, at least all those accepted before the
   queue was read; own entries and queued items are the accepted deltas themselves.
   */
  lemma JoinComplete(maxSize: nat, batchSize: nat, history: map<TaskKey, seq<Delta>>, steps: seq<Step>, j: nat)
    requires var s := Exec(Fresh(maxSize, batchSize, history), steps);
             j in s.jobs && s.jobs[j].phase.Sent? && s.jobs[j].phase.from == 0
    ensures var s := Exec(Fresh(maxSize, batchSize, history), steps);
            var Job(c, k, phase) := s.jobs[j];
            var acc := At(s.pipe.accepted, k);
            var Sent(at, queued, _, entries) := phase;
            && Init(k, DataOf(entries) + DeltasOf(queued)) in Inbox(s, c)
            && at <= |acc|
            && (exists n :: at <= n <= |acc| && FirstOccurrences(OwnNos(entries) + Nos(queued)) == Interval(0, n))
            && (forall e :: e in entries && e.Own? ==> e.item.no < |acc| && acc[e.item.no] == e.item)
            && (forall x :: x in queued ==> x.no < |acc| && acc[x.no] == x)
  {
    var s := Exec(Fresh(maxSize, batchSize, history), steps);
    var Job(c, k, phase) := s.jobs[j];
    var acc := At(s.pipe.accepted, k);
    var Sent(at, queued, _, entries) := phase;
    hide Exec, Fresh;
    JobsHold(maxSize, batchSize, history, steps);
    DurableFifo(maxSize, batchSize, history, steps);
    assert JobOk(s, s.jobs[j]);
    KeyNumbered(s.pipe, k);
    hide Inv, JobsInv, Written, Snapshot, IsLogOf, Numbered, FirstOccurrences;
    ListsAccepted(acc, at, queued, entries);
  }

  /** What a snapshot of the queue and a whole read of the stream list together. */
  lemma ListsAccepted(acc: seq<Item>, at: nat, queued: seq<Item>, entries: seq<Entry>)
    requires Numbered(acc) && Snapshot(acc, at, queued) && ReadOk(acc, at, queued, 0, entries)
    ensures at <= |acc|
    ensures exists n :: at <= n <= |acc| && FirstOccurrences(OwnNos(entries) + Nos(queued)) == Interval(0, n)
    ensures forall e :: e in entries && e.Own? ==> e.item.no < |acc| && acc[e.item.no] == e.item
    ensures forall x :: x in queued ==> x.no < |acc| && acc[x.no] == x
  {
    hide Written, FirstOccurrences, OwnNos, IsStutter;
    var lo := at - |queued|;
    assert forall i :: 0 <= i < |queued| ==> queued[i] == acc[lo + i];
    assert Nos(queued) == Interval(lo, at);
    StitchedFirstOccurrences(OwnNos(entries), Written(entries), lo, at);
  }

  lemma KeyNumbered(p: Pipe, k: TaskKey)
    requires Inv(p)
    ensures Numbered(At(p.accepted, k))
  {
    KeyFacts(p, k);
  }

  ghost predicate ReadWhole(s: State) {
    && s.trimmed == map[]
    && forall j :: j in s.jobs ==> PhaseWhole(s.jobs[j].phase)
  }

  predicate PhaseWhole(phase: Phase) {
    phase.Reseeding? || phase.Loaded? || phase.Sent? ==> phase.from == 0
  }

  lemma ReadWholeStep(s: State, step: Step)
    requires ReadWhole(s) && !step.CompactTrim?
    ensures ReadWhole(Next(s, step))
  {
    var t := Next(s, step);
    OtherJobsSame(s, step);
    StepFrame(s, step);
    StepIs(s, step);
    hide Next, Inbox, Visible, DataOf, DeltasOf, DoUpdate, DoSendAck, DoFanOut, DoEvictSlow, DoCompactAppend, DoCompactTrim;
    forall j | j in t.jobs ensures PhaseWhole(t.jobs[j].phase) {
    }
  }

  /** As long as no XTRIM has run, every stream is read whole. */
  lemma {:induction false} NoTrimReadsAll(maxSize: nat, batchSize: nat, history: map<TaskKey, seq<Delta>>, steps: seq<Step>)
    requires forall i :: 0 <= i < |steps| ==> !steps[i].CompactTrim?
    ensures ReadWhole(Exec(Fresh(maxSize, batchSize, history), steps))
    decreases |steps|
  {
    if steps != [] {
      hide ReadWhole, Next;
      NoTrimReadsAll(maxSize, batchSize, history, steps[..|steps| - 1]);
      ReadWholeStep(Exec(Fresh(maxSize, batchSize, history), steps[..|steps| - 1]), steps[|steps| - 1]);
    }
  }
}
