/**
 What trimming a stream behind a snapshot does to the document. An update is read as a set of operations and a list
 of updates as their union, for an arbitrary reading ops.
 */
module YjsCompaction {
  import opened Basics
  import opened SaveQueue
  import opened TaskStreams
  import opened YjsRoom
  import opened YjsFifo
  import opened YjsJoin
  import opened YjsCoverage

  ghost function Doc(ops: Delta -> set<nat>, entries: seq<Entry>): set<nat> {
    set e, x | e in entries && x in ops(e.Data()) :: x
  }

  lemma DocConcat(ops: Delta -> set<nat>, a: seq<Entry>, b: seq<Entry>)
    ensures Doc(ops, a + b) == Doc(ops, a) + Doc(ops, b)
  {
  }

  lemma DocOne(ops: Delta -> set<nat>, e: Entry)
    ensures Doc(ops, [e]) == ops(e.Data())
  {
    assert forall x :: x in ops(e.Data()) ==> e in [e] && x in Doc(ops, [e]);
  }

  lemma DocSplit(ops: Delta -> set<nat>, log: seq<Entry>, n: nat)
    requires n <= |log|
    ensures Doc(ops, log) == Doc(ops, log[..n]) + Doc(ops, log[n..])
  {
    assert log == log[..n] + log[n..];
    DocConcat(ops, log[..n], log[n..]);
  }

  // The snapshot's XADD and the XTRIM behind it are two steps, and any append, flush or join may come between them. The
  // premise of the main results is that a snapshot covers what was visible when it was appended.

  /** The snapshot includes everything that XRANGE would have returned just before it was appended. */
  ghost predicate Covers(ops: Delta -> set<nat>, s: State, step: Step) {
    step.CompactAppend? ==> Doc(ops, Visible(s, step.key)) <= ops(step.snapshot)
  }

  ghost predicate CoveringRun(ops: Delta -> set<nat>, s0: State, steps: seq<Step>) {
    forall i :: 0 <= i < |steps| ==> Covers(ops, Exec(s0, steps[..i]), steps[i])
  }

  /** Of one task: the visible part has the whole document, and so has the log from each snapshot still to be trimmed to. */
  ghost predicate KeyDoc(ops: Delta -> set<nat>, log: seq<Entry>, trimmed: nat, k: TaskKey, compactions: set<(TaskKey, nat)>) {
    && trimmed <= |log|
    && Doc(ops, log) <= Doc(ops, log[trimmed..])
    && forall at :: (k, at) in compactions ==> at < |log| && Doc(ops, log) <= Doc(ops, log[at..])
  }

  ghost predicate DocInv(ops: Delta -> set<nat>, s: State) {
    forall k :: KeyDoc(ops, At(s.pipe.log, k), Trimmed(s, k), k, s.compactions)
  }

  lemma KeyDocAppend(ops: Delta -> set<nat>, log: seq<Entry>, trimmed: nat, k: TaskKey, compactions: set<(TaskKey, nat)>, e: Entry)
    requires KeyDoc(ops, log, trimmed, k, compactions)
    ensures KeyDoc(ops, log + [e], trimmed, k, compactions)
  {
    SuffixDocAppend(ops, log, trimmed, e);
    forall at | (k, at) in compactions ensures Doc(ops, log + [e]) <= Doc(ops, (log + [e])[at..]) {
      SuffixDocAppend(ops, log, at, e);
    }
  }

  lemma SuffixDocAppend(ops: Delta -> set<nat>, log: seq<Entry>, n: nat, e: Entry)
    requires n <= |log| && Doc(ops, log) <= Doc(ops, log[n..])
    ensures Doc(ops, log + [e]) <= Doc(ops, (log + [e])[n..])
  {
    assert (log + [e])[n..] == log[n..] + [e];
    DocConcat(ops, log, [e]);
    DocConcat(ops, log[n..], [e]);
    hide Doc;
  }

  /** A covering snapshot at the end of the log carries the document on its own. */
  lemma KeyDocSnapshot(ops: Delta -> set<nat>, log: seq<Entry>, trimmed: nat, k: TaskKey, compactions: set<(TaskKey, nat)>, d: Delta)
    requires KeyDoc(ops, log, trimmed, k, compactions) && Doc(ops, log[trimmed..]) <= ops(d)
    ensures KeyDoc(ops, log + [Other(d)], trimmed, k, compactions + {(k, |log|)})
  {
    KeyDocAppend(ops, log, trimmed, k, compactions, Other(d));
    assert (log + [Other(d)])[|log|..] == [Other(d)];
    DocConcat(ops, log, [Other(d)]);
    DocOne(ops, Other(d));
    hide Doc;
  }

  ghost predicate SameStreams(s: State, t: State) {
    t.pipe.log == s.pipe.log && t.trimmed == s.trimmed && t.compactions == s.compactions
  }

  /** How a step can change the streams: not at all, by one entry, or by a compaction. */
  lemma StreamSteps(s: State, step: Step)
    requires !step.CompactAppend? && !step.CompactTrim?
    ensures var t := Next(s, step);
            || SameStreams(s, t)
            || exists k, e :: t.pipe.log == s.pipe.log[k := At(s.pipe.log, k) + [e]]
                 && t.trimmed == s.trimmed && t.compactions == s.compactions
  {
    if IsPipeStep(step) {
      PipeStreams(s, step);
    } else {
      StepFrame(s, step);
    }
    hide Next;
  }

  lemma PipeStreams(s: State, step: Step)
    requires IsPipeStep(step) && !step.CompactAppend? && !step.CompactTrim?
    ensures var t := Next(s, step);
            || SameStreams(s, t)
            || exists k, e :: t.pipe.log == s.pipe.log[k := At(s.pipe.log, k) + [e]]
                 && t.trimmed == s.trimmed && t.compactions == s.compactions
  {
    var t := Next(s, step);
    hide Visible, Trimmed, Queue.CommitBatch, Queue.Batch;
    match step
    case AppendOne(reply) =>
      if s.pipe.flusher.Appending? && s.pipe.flusher.done < |s.pipe.flusher.batch| && reply != Refused {
        var k, e := s.pipe.flusher.key, Own(s.pipe.flusher.batch[s.pipe.flusher.done]);
        assert t.pipe.log == s.pipe.log[k := At(s.pipe.log, k) + [e]];
      }
    case OtherAppend(k, d) => assert t.pipe.log == s.pipe.log[k := At(s.pipe.log, k) + [Other(d)]];
    case Seed(k, d) => assert SameStreams(s, t) || t.pipe.log == s.pipe.log[k := At(s.pipe.log, k) + [Other(d)]];
    case _ =>
  }

  lemma DocKeeps(ops: Delta -> set<nat>, s: State, step: Step)
    requires DocInv(ops, s) && Covers(ops, s, step)
    ensures DocInv(ops, Next(s, step))
  {
    hide KeyDoc;
    var t := Next(s, step);
    if step.CompactAppend? {
      DocCompactAppend(ops, s, step.key, step.snapshot);
    } else if step.CompactTrim? {
      DocCompactTrim(ops, s, step.key, step.at);
    } else {
      StreamSteps(s, step);
      hide Next;
      forall k ensures KeyDoc(ops, At(t.pipe.log, k), Trimmed(t, k), k, t.compactions) {
        if At(t.pipe.log, k) != At(s.pipe.log, k) {
          var e := At(t.pipe.log, k)[|At(s.pipe.log, k)|];
          KeyDocAppend(ops, At(s.pipe.log, k), Trimmed(s, k), k, s.compactions, e);
        }
      }
    }
  }

  lemma DocCompactAppend(ops: Delta -> set<nat>, s: State, key: TaskKey, d: Delta)
    requires DocInv(ops, s) && Doc(ops, Visible(s, key)) <= ops(d)
    ensures DocInv(ops, DoCompactAppend(s, key, d))
  {
    var t := DoCompactAppend(s, key, d);
    assert KeyDoc(ops, At(s.pipe.log, key), Trimmed(s, key), key, s.compactions);
    KeyDocSnapshot(ops, At(s.pipe.log, key), Trimmed(s, key), key, s.compactions, d);
    hide Doc;
    forall k ensures KeyDoc(ops, At(t.pipe.log, k), Trimmed(t, k), k, t.compactions) {
      assert KeyDoc(ops, At(s.pipe.log, k), Trimmed(s, k), k, s.compactions);
    }
  }

  lemma DocCompactTrim(ops: Delta -> set<nat>, s: State, key: TaskKey, at: nat)
    requires DocInv(ops, s)
    ensures DocInv(ops, DoCompactTrim(s, key, at))
  {
    hide Doc;
    var t := DoCompactTrim(s, key, at);
    forall k ensures KeyDoc(ops, At(t.pipe.log, k), Trimmed(t, k), k, t.compactions) {
      assert KeyDoc(ops, At(s.pipe.log, k), Trimmed(s, k), k, s.compactions);
    }
  }

  lemma {:induction false} DocHolds(ops: Delta -> set<nat>, maxSize: nat, batchSize: nat,
                                    history: map<TaskKey, seq<Delta>>, steps: seq<Step>)
    requires CoveringRun(ops, Fresh(maxSize, batchSize, history), steps)
    ensures DocInv(ops, Exec(Fresh(maxSize, batchSize, history), steps))
    decreases |steps|
  {
    var s0 := Fresh(maxSize, batchSize, history);
    if steps == [] {
      forall k ensures KeyDoc(ops, At(s0.pipe.log, k), Trimmed(s0, k), k, s0.compactions) {
        assert At(s0.pipe.log, k)[0..] == At(s0.pipe.log, k);
      }
    } else {
      hide DocInv, Next, Covers;
      var before := steps[..|steps| - 1];
      assert forall i :: 0 <= i < |before| ==> before[..i] == steps[..i] && before[i] == steps[i];
      DocHolds(ops, maxSize, batchSize, history, before);
      DocKeeps(ops, Exec(s0, before), steps[|steps| - 1]);
    }
  }

  /**
   When every snapshot covers what was visible as it was appended, no interleaving of appends, snapshots and trims,
   finished or not, takes anything out of the document that XRANGE shows.
   */
  lemma CompactionPreserves(ops: Delta -> set<nat>, maxSize: nat, batchSize: nat,
                            history: map<TaskKey, seq<Delta>>, steps: seq<Step>, k: TaskKey)
    requires CoveringRun(ops, Fresh(maxSize, batchSize, history), steps)
    ensures var s := Exec(Fresh(maxSize, batchSize, history), steps);
            Doc(ops, Visible(s, k)) == Doc(ops, At(s.pipe.log, k))
  {
    DocHolds(ops, maxSize, batchSize, history, steps);
    var s := Exec(Fresh(maxSize, batchSize, history), steps);
    hide Exec, Fresh, Doc;
    VisibleDoc(ops, s, k);
  }

  lemma VisibleDoc(ops: Delta -> set<nat>, s: State, k: TaskKey)
    requires DocInv(ops, s)
    ensures Doc(ops, Visible(s, k)) == Doc(ops, At(s.pipe.log, k))
  {
    assert KeyDoc(ops, At(s.pipe.log, k), Trimmed(s, k), k, s.compactions);
    DocSplit(ops, At(s.pipe.log, k), Trimmed(s, k));
    hide Doc;
  }

  // Joining a room whose streams are being compacted.

  /** Whatever was trimmed, the list has every operation accepted before the queue was read. */
  ghost predicate PhaseDoc(ops: Delta -> set<nat>, acc: seq<Item>, phase: Phase) {
    match phase
    case Loaded(at, queued, _, entries) => ListDoc(ops, acc, at, queued, entries)
    case Sent(at, queued, _, entries) => ListDoc(ops, acc, at, queued, entries)
    case Reseeding(at, queued, _) => ListDoc(ops, acc, at, queued, [])
    case _ => true
  }

  ghost predicate ListDoc(ops: Delta -> set<nat>, acc: seq<Item>, at: nat, queued: seq<Item>, entries: seq<Entry>) {
    && at <= |acc|
    && forall i :: 0 <= i < at ==> acc[i] in queued || ops(acc[i].delta) <= Doc(ops, entries)
  }

  ghost predicate JobsDoc(ops: Delta -> set<nat>, s: State) {
    forall j :: j in s.jobs ==> PhaseDoc(ops, At(s.pipe.accepted, s.jobs[j].key), s.jobs[j].phase)
  }

  lemma PhaseDocStays(ops: Delta -> set<nat>, acc: seq<Item>, acc': seq<Item>, phase: Phase)
    requires PhaseDoc(ops, acc, phase) && acc <= acc'
    ensures PhaseDoc(ops, acc', phase)
  {
    hide Doc;
  }

  lemma ReadDoc(ops: Delta -> set<nat>, s: State, k: TaskKey, at: nat, queued: seq<Item>)
    requires Inv(s.pipe) && DocInv(ops, s)
    requires PhaseOk(At(s.pipe.accepted, k), Written(At(s.pipe.log, k)), HasPending(at, queued))
    ensures ListDoc(ops, At(s.pipe.accepted, k), at, queued, Visible(s, k))
  {
    var acc, log := At(s.pipe.accepted, k), At(s.pipe.log, k);
    VisibleDoc(ops, s, k);
    KeySplit(s.pipe, k);
    KeyNumbered(s.pipe, k);
    hide Inv, DocInv, Visible, IsLogOf, Written, Doc;
    forall i | 0 <= i < at ensures acc[i] in queued || ops(acc[i].delta) <= Doc(ops, Visible(s, k)) {
      if i < at - |queued| {
        WrittenIsIn(log, acc, i);
        EntryInDoc(ops, log, Own(acc[i]));
      } else {
        assert queued[i - (at - |queued|)] == acc[i];
      }
    }
  }

  lemma EntryInDoc(ops: Delta -> set<nat>, entries: seq<Entry>, e: Entry)
    requires e in entries
    ensures ops(e.Data()) <= Doc(ops, entries)
  {
  }

  lemma ReadStepsDoc(ops: Delta -> set<nat>, s: State, j: nat)
    requires Inv(s.pipe) && DocInv(ops, s) && j in s.jobs && JobOk(s, s.jobs[j])
    requires PhaseDoc(ops, At(s.pipe.accepted, s.jobs[j].key), s.jobs[j].phase)
    ensures PhaseDoc(ops, At(s.pipe.accepted, s.jobs[j].key), DoReadStream(s, j).jobs[j].phase)
    ensures forall ok :: PhaseDoc(ops, At(s.pipe.accepted, s.jobs[j].key), DoReadAgain(s, j, ok).jobs[j].phase)
  {
    hide ListDoc, Inv, DocInv, Visible, Trimmed, Inbox, DataOf, DeltasOf, Written, Snapshot, ReadOk;
    var k := s.jobs[j].key;
    match s.jobs[j].phase
    case HasPending(at, queued) => ReadDoc(ops, s, k, at, queued);
    case Reseeding(at, queued, _) => ReadDoc(ops, s, k, at, queued);
    case _ =>
  }

  lemma OwnJobDoc(ops: Delta -> set<nat>, s: State, step: Step, j: nat)
    requires Inv(s.pipe) && JobsInv(s) && DocInv(ops, s) && JobsDoc(ops, s)
    requires j in JobOf(step) && j in Next(s, step).jobs
    ensures var t := Next(s, step); PhaseDoc(ops, At(t.pipe.accepted, t.jobs[j].key), t.jobs[j].phase)
  {
    hide Next, ListDoc, Inv, DocInv, JobOk;
    if j in s.jobs {
      assert JobOk(s, s.jobs[j]) && PhaseDoc(ops, At(s.pipe.accepted, s.jobs[j].key), s.jobs[j].phase);
    }
    SamePipe(s, step);
    hide JobsInv, JobsDoc, Visible, Trimmed, Inbox, DataOf, DeltasOf, At;
    if (step.ReadStream? || step.ReadAgain?) && j in s.jobs {
      ReadStepsDoc(ops, s, j);
      SameKey(s, step, j);
      hide PhaseDoc;
    } else {
      UnreadPhase(s, step, j);
    }
  }

  lemma SameKey(s: State, step: Step, j: nat)
    requires j in JobOf(step) && j in s.jobs && (step.ReadStream? || step.ReadAgain?)
    ensures j in Next(s, step).jobs && Next(s, step).jobs[j].key == s.jobs[j].key
    ensures Next(s, step) == if step.ReadStream? then DoReadStream(s, j) else DoReadAgain(s, j, step.ok)
  {
    StepIs(s, step);
    hide Next, Visible, Trimmed;
  }

  /** No other step of a job reads the stream: it keeps what was read, or has read nothing. */
  lemma UnreadPhase(s: State, step: Step, j: nat)
    requires j in JobOf(step) && j in Next(s, step).jobs && (!(step.ReadStream? || step.ReadAgain?) || j !in s.jobs)
    ensures var x := Next(s, step).jobs[j];
            || !(x.phase.Loaded? || x.phase.Sent? || x.phase.Reseeding?)
            || (j in s.jobs && x == s.jobs[j])
            || (&& j in s.jobs && s.jobs[j].phase.Loaded? && x.phase.Sent? && s.jobs[j].key == x.key
                && s.jobs[j].phase.at == x.phase.at && s.jobs[j].phase.queued == x.phase.queued
                && s.jobs[j].phase.entries == x.phase.entries)
  {
    StepIs(s, step);
    hide Next, Inbox, Visible, Trimmed, DataOf, DeltasOf;
  }

  lemma JobsDocKeeps(ops: Delta -> set<nat>, s: State, step: Step)
    requires Inv(s.pipe) && JobsInv(s) && DocInv(ops, s) && JobsDoc(ops, s)
    ensures JobsDoc(ops, Next(s, step))
  {
    hide Next, Inv, JobsInv, DocInv, PhaseDoc;
    var t := Next(s, step);
    NextGrows(s, step);
    OtherJobsSame(s, step);
    forall j | j in t.jobs ensures PhaseDoc(ops, At(t.pipe.accepted, t.jobs[j].key), t.jobs[j].phase) {
      if j in JobOf(step) {
        OwnJobDoc(ops, s, step, j);
      } else {
        var k := s.jobs[j].key;
        assert KeyGrows(s.pipe, t.pipe, k);
        PhaseDocStays(ops, At(s.pipe.accepted, k), At(t.pipe.accepted, k), s.jobs[j].phase);
      }
    }
  }

  lemma {:induction false} JobsDocHold(ops: Delta -> set<nat>, maxSize: nat, batchSize: nat,
                                       history: map<TaskKey, seq<Delta>>, steps: seq<Step>)
    requires CoveringRun(ops, Fresh(maxSize, batchSize, history), steps)
    ensures JobsDoc(ops, Exec(Fresh(maxSize, batchSize, history), steps))
    decreases |steps|
  {
    if steps != [] {
      hide JobsDoc, JobsInv, Inv, DocInv, Next, Covers;
      var before := steps[..|steps| - 1];
      assert forall i :: 0 <= i < |before| ==> before[..i] == steps[..i] && before[i] == steps[i];
      JobsDocHold(ops, maxSize, batchSize, history, before);
      DocHolds(ops, maxSize, batchSize, history, before);
      DurableFifo(maxSize, batchSize, history, before);
      JobsHold(maxSize, batchSize, history, before);
      JobsDocKeeps(ops, Exec(Fresh(maxSize, batchSize, history), before), steps[|steps| - 1]);
    }
  }

  /** Join completeness under compaction: with covering snapshots no operation accepted before the queue was read is missing. */
  lemma CompactedJoinComplete(ops: Delta -> set<nat>, maxSize: nat, batchSize: nat,
                              history: map<TaskKey, seq<Delta>>, steps: seq<Step>, j: nat)
    requires CoveringRun(ops, Fresh(maxSize, batchSize, history), steps)
    requires var s := Exec(Fresh(maxSize, batchSize, history), steps); j in s.jobs && s.jobs[j].phase.Sent?
    ensures var s := Exec(Fresh(maxSize, batchSize, history), steps);
            var Job(_, k, Sent(at, queued, _, entries)) := s.jobs[j];
            && at <= |At(s.pipe.accepted, k)|
            && forall i :: 0 <= i < at ==>
                 At(s.pipe.accepted, k)[i] in queued || ops(At(s.pipe.accepted, k)[i].delta) <= Doc(ops, entries)
  {
    hide Exec, Fresh, Doc, JobsDoc;
    JobsDocHold(ops, maxSize, batchSize, history, steps);
    SentDoc(ops, Exec(Fresh(maxSize, batchSize, history), steps), j);
  }

  lemma SentDoc(ops: Delta -> set<nat>, s: State, j: nat)
    requires JobsDoc(ops, s) && j in s.jobs && s.jobs[j].phase.Sent?
    ensures var Job(_, k, Sent(at, queued, _, entries)) := s.jobs[j];
            ListDoc(ops, At(s.pipe.accepted, k), at, queued, entries)
  {
    hide Doc, ListDoc;
    assert PhaseDoc(ops, At(s.pipe.accepted, s.jobs[j].key), s.jobs[j].phase);
  }

  ghost function ListOps(ops: Delta -> set<nat>, updates: seq<Delta>): set<nat> {
    set d, x | d in updates && x in ops(d) :: x
  }

  lemma EntriesInList(ops: Delta -> set<nat>, entries: seq<Entry>, queued: seq<Item>)
    ensures Doc(ops, entries) <= ListOps(ops, DataOf(entries) + DeltasOf(queued))
    ensures forall item :: item in queued ==> ops(item.delta) <= ListOps(ops, DataOf(entries) + DeltasOf(queued))
  {
    var list := DataOf(entries) + DeltasOf(queued);
    forall e | e in entries ensures e.Data() in list {
      var i :| 0 <= i < |entries| && entries[i] == e;
      assert list[i] == e.Data();
    }
    forall item | item in queued ensures item.delta in list {
      var i :| 0 <= i < |queued| && queued[i] == item;
      assert list[|entries| + i] == item.delta;
    }
  }

  /**
   Client coverage under compaction. With covering snapshots, whatever was trimmed before the list was read: for a
   client in the room that is not about to be evicted and has been sent its yjs.init, the operations of each delta this
   replica has accepted for the task are in that list, or the delta came live, is its own, or is next in the Run loop.
   */
  lemma NothingMissedCompacted(ops: Delta -> set<nat>, maxSize: nat, batchSize: nat,
                               history: map<TaskKey, seq<Delta>>, steps: seq<Step>, j: nat, i: nat)
    requires CoveringRun(ops, Fresh(maxSize, batchSize, history), steps)
    requires var s := Exec(Fresh(maxSize, batchSize, history), steps);
             && j in s.jobs && s.jobs[j].phase.Sent?
             && s.jobs[j].client in s.clients && !BeingEvicted(s.run, s.jobs[j].client)
             && i < |At(s.pipe.accepted, s.jobs[j].key)|
    ensures var s := Exec(Fresh(maxSize, batchSize, history), steps);
            var Job(c, k, Sent(_, queued, _, entries)) := s.jobs[j];
            var item, list := At(s.pipe.accepted, k)[i], DataOf(entries) + DeltasOf(queued);
            && Init(k, list) in Inbox(s, c)
            && (ops(item.delta) <= ListOps(ops, list) || Otherwise(s, c, k, item))
  {
    var s := Exec(Fresh(maxSize, batchSize, history), steps);
    var Job(c, k, Sent(at, queued, _, entries)) := s.jobs[j];
    CompactedJoinComplete(ops, maxSize, batchSize, history, steps, j);
    DurableFifo(maxSize, batchSize, history, steps);
    JobsHold(maxSize, batchSize, history, steps);
    CoverageHolds(maxSize, batchSize, history, steps);
    hide Exec, Fresh, Inv, JobsInv, ClientsInv, InboxInv, Doc, ListOps, DataOf, DeltasOf, CoveringRun, Otherwise;
    SentIsCovered(s, j);
    EntriesInList(ops, entries, queued);
  }

  // What a trim does when nothing is assumed about the snapshot.

  /** A snapshot of k was appended at position at. */
  ghost predicate SnapshotAt(s0: State, steps: seq<Step>, k: TaskKey, at: nat) {
    exists n :: 0 <= n < |steps| && steps[n].CompactAppend? && steps[n].key == k && |At(Exec(s0, steps[..n]).pipe.log, k)| == at
  }

  lemma SnapshotStays(s0: State, steps: seq<Step>, k: TaskKey, at: nat)
    requires steps != [] && SnapshotAt(s0, steps[..|steps| - 1], k, at)
    ensures SnapshotAt(s0, steps, k, at)
  {
    hide Exec;
    var before := steps[..|steps| - 1];
    var n :| 0 <= n < |before| && before[n].CompactAppend? && before[n].key == k && |At(Exec(s0, before[..n]).pipe.log, k)| == at;
    assert before[..n] == steps[..n];
  }

  /** What a step can do to the trims: announce one, or carry one out. */
  lemma TrimSteps(s: State, step: Step, k: TaskKey)
    ensures var t := Next(s, step);
            && (Trimmed(t, k) == Trimmed(s, k) || (k, Trimmed(t, k)) in s.compactions)
            && forall at :: (k, at) in t.compactions ==>
                 (k, at) in s.compactions || (step.CompactAppend? && step.key == k && at == |At(s.pipe.log, k)|)
  {
    StepIs(s, step);
    StepFrame(s, step);
    if step.CompactAppend? || step.CompactTrim? {
      hide Next;
    } else {
      StreamSteps(s, step);
      hide Next;
    }
  }

  lemma {:induction false} TrimsBehindSnapshots(maxSize: nat, batchSize: nat, history: map<TaskKey, seq<Delta>>,
                                                steps: seq<Step>, k: TaskKey)
    ensures var s0 := Fresh(maxSize, batchSize, history);
            var s := Exec(s0, steps);
            && (Trimmed(s, k) == 0 || SnapshotAt(s0, steps, k, Trimmed(s, k)))
            && forall at :: (k, at) in s.compactions ==> SnapshotAt(s0, steps, k, at)
    decreases |steps|
  {
    var s0 := Fresh(maxSize, batchSize, history);
    if steps != [] {
      var before, step := steps[..|steps| - 1], steps[|steps| - 1];
      var s := Exec(s0, before);
      TrimsBehindSnapshots(maxSize, batchSize, history, before, k);
      TrimSteps(s, step, k);
      hide Next, Fresh, Trimmed;
      forall at | SnapshotAt(s0, before, k, at) ensures SnapshotAt(s0, steps, k, at) {
        SnapshotStays(s0, steps, k, at);
      }
      if step.CompactAppend? && step.key == k {
        assert SnapshotAt(s0, steps, k, |At(s.pipe.log, k)|);
      }
    }
  }

  /**
   With no premise at all: in every run an entry that XRANGE no longer shows was in its stream before some snapshot was
   appended, so whatever comes after the last snapshot survives every trim.
   */
  lemma LaterEntriesSurvive(maxSize: nat, batchSize: nat, history: map<TaskKey, seq<Delta>>,
                            steps: seq<Step>, k: TaskKey, i: nat)
    requires i < |At(Exec(Fresh(maxSize, batchSize, history), steps).pipe.log, k)|
    ensures var s0 := Fresh(maxSize, batchSize, history);
            var s := Exec(s0, steps);
            At(s.pipe.log, k)[i] in Visible(s, k) || exists at :: i < at && SnapshotAt(s0, steps, k, at)
  {
    var s := Exec(Fresh(maxSize, batchSize, history), steps);
    TrimsBehindSnapshots(maxSize, batchSize, history, steps, k);
    TrimmedInLog(maxSize, batchSize, history, steps, k);
    hide Exec, Fresh, SnapshotAt;
    if Trimmed(s, k) <= i {
      assert Visible(s, k)[i - Trimmed(s, k)] == At(s.pipe.log, k)[i];
    }
  }

  /** A trim is carried out once, takes the stream up to its snapshot, and never gives anything back. */
  lemma TrimOnlyAdvances(s: State, step: Step, k: TaskKey)
    ensures var t := Next(s, step);
            && Trimmed(t, k) >= Trimmed(s, k)
            && (step.CompactTrim? && step.key == k && (k, step.at) in s.compactions ==>
                  && Trimmed(t, k) == (if step.at > Trimmed(s, k) then step.at else Trimmed(s, k))
                  && t.compactions == s.compactions - {(k, step.at)})
  {
    StepIs(s, step);
    StepFrame(s, step);
    hide Next;
  }

  /** Seeding writes the starter update exactly into a stream that shows nothing, and only the first of two attempts does. */
  lemma SeedsOnce(s: State, k: TaskKey, d: Delta, again: Delta)
    requires Trimmed(s, k) <= |At(s.pipe.log, k)|
    ensures var t := Next(s, Seed(k, d));
            && (Visible(s, k) != [] ==> t == s)
            && (Visible(s, k) == [] ==> Visible(t, k) == [Other(d)] && t == s.(pipe := s.pipe.AppendTo(k, Other(d))))
            && Next(t, Seed(k, again)) == t
  {
    StepIs(s, Seed(k, d));
    StepIs(Next(s, Seed(k, d)), Seed(k, again));
    hide Next;
  }

  /** Trimming the stream of k to at, here and now, leaves XRANGE with all that was ever appended. */
  ghost predicate TrimKeeps(ops: Delta -> set<nat>, s: State, k: TaskKey, at: nat) {
    var t := DoCompactTrim(s, k, at);
    Doc(ops, Visible(t, k)) == Doc(ops, At(t.pipe.log, k))
  }

  /** A trim never takes more than there is, whatever the snapshots hold. */
  lemma TrimmedInLog(maxSize: nat, batchSize: nat, history: map<TaskKey, seq<Delta>>, steps: seq<Step>, k: TaskKey)
    ensures var s := Exec(Fresh(maxSize, batchSize, history), steps); Trimmed(s, k) <= |At(s.pipe.log, k)|
  {
    var none := (d: Delta) => {};
    var s0 := Fresh(maxSize, batchSize, history);
    DocHolds(none, maxSize, batchSize, history, steps) by {
      forall i | 0 <= i < |steps| ensures Covers(none, Exec(s0, steps[..i]), steps[i]) {
        hide Exec, Fresh;
      }
    }
    var s := Exec(s0, steps);
    hide Exec, Fresh, Doc;
    assert KeyDoc(none, At(s.pipe.log, k), Trimmed(s, k), k, s.compactions);
  }

  /** Trimming right behind a snapshot that does not cover what was visible takes something out of the document. */
  lemma UncoveredTrimLoses(ops: Delta -> set<nat>, s: State, k: TaskKey, d: Delta)
    requires Trimmed(s, k) <= |At(s.pipe.log, k)| && !(Doc(ops, Visible(s, k)) <= ops(d))
    ensures !TrimKeeps(ops, DoCompactAppend(s, k, d), k, |At(s.pipe.log, k)|)
  {
    var log, n := At(s.pipe.log, k), Trimmed(s, k);
    var t := DoCompactTrim(DoCompactAppend(s, k, d), k, |log|);
    assert Visible(t, k) == [Other(d)];
    DocOne(ops, Other(d));
    DocSplit(ops, log, n);
    DocConcat(ops, log, [Other(d)]);
    hide Doc;
  }

  /**
   Covering is exactly what compaction needs. A run's snapshots all cover what was visible as they were appended if and
   only if there is no moment in it at which trimming behind some snapshot would take anything out of the document.
   */
  lemma CompactionExact(ops: Delta -> set<nat>, maxSize: nat, batchSize: nat,
                        history: map<TaskKey, seq<Delta>>, steps: seq<Step>)
    ensures var s0 := Fresh(maxSize, batchSize, history);
            CoveringRun(ops, s0, steps)
            <==> forall n, k, at :: 0 <= n <= |steps| ==> TrimKeeps(ops, Exec(s0, steps[..n]), k, at)
  {
    var s0 := Fresh(maxSize, batchSize, history);
    if CoveringRun(ops, s0, steps) {
      forall n, k, at | 0 <= n <= |steps| ensures TrimKeeps(ops, Exec(s0, steps[..n]), k, at) {
        CoveredTrimKeeps(ops, maxSize, batchSize, history, steps, n, k, at);
      }
    } else {
      var i :| 0 <= i < |steps| && !Covers(ops, Exec(s0, steps[..i]), steps[i]);
      UncoveredRunLoses(ops, maxSize, batchSize, history, steps, i);
    }
  }

  lemma UncoveredRunLoses(ops: Delta -> set<nat>, maxSize: nat, batchSize: nat,
                          history: map<TaskKey, seq<Delta>>, steps: seq<Step>, i: nat)
    requires i < |steps| && !Covers(ops, Exec(Fresh(maxSize, batchSize, history), steps[..i]), steps[i])
    ensures var s0, k := Fresh(maxSize, batchSize, history), steps[i].key;
            !TrimKeeps(ops, Exec(s0, steps[..i + 1]), k, |At(Exec(s0, steps[..i]).pipe.log, k)|)
  {
    var s0 := Fresh(maxSize, batchSize, history);
    var s, step := Exec(s0, steps[..i]), steps[i];
    TrimmedInLog(maxSize, batchSize, history, steps[..i], step.key);
    UncoveredTrimLoses(ops, s, step.key, step.snapshot);
    StepIs(s, step);
    assert steps[..i + 1] == steps[..i] + [step];
    hide Fresh, TrimKeeps, Doc, Visible, Next, DoCompactAppend;
    ExecLast(s0, steps[..i], step);
  }

  lemma ExecLast(s0: State, run: seq<Step>, step: Step)
    ensures Exec(s0, run + [step]) == Next(Exec(s0, run), step)
  {
    hide Next;
    assert (run + [step])[..|run|] == run;
  }

  lemma CoveredTrimKeeps(ops: Delta -> set<nat>, maxSize: nat, batchSize: nat,
                         history: map<TaskKey, seq<Delta>>, steps: seq<Step>, n: nat, k: TaskKey, at: nat)
    requires CoveringRun(ops, Fresh(maxSize, batchSize, history), steps) && n <= |steps|
    ensures TrimKeeps(ops, Exec(Fresh(maxSize, batchSize, history), steps[..n]), k, at)
  {
    var s0, run := Fresh(maxSize, batchSize, history), steps[..n] + [CompactTrim(k, at)];
    assert forall i :: 0 <= i < n ==> run[..i] == steps[..i] && run[i] == steps[i];
    assert run[..n] == steps[..n];
    assert CoveringRun(ops, s0, run) by {
      hide Exec, Fresh;
    }
    CompactionPreserves(ops, maxSize, batchSize, history, run, k);
    hide Covers, Next, Fresh, Doc, Visible, DoCompactTrim;
    ExecLast(s0, steps[..n], CompactTrim(k, at));
    StepIs(Exec(s0, steps[..n]), CompactTrim(k, at));
    hide Exec;
  }

  function RaceOps(d: Delta): set<nat> {
    if d == Delta("edit") then {1} else {}
  }

  lemma StepOn(run: seq<Step>, s: State, s0: State, step: Step) returns (run': seq<Step>, s': State)
    requires s == Exec(s0, run)
    ensures run' == run + [step] && s' == Next(s, step) && s' == Exec(s0, run')
  {
    run', s' := run + [step], Next(s, step);
    assert run'[..|run|] == run;
  }

  const KEY := TaskKey("two-sum:typescript")
  const EDIT := Item(0, 1, Delta("edit"))
  const SNAPSHOT := Other(Delta("snapshot"))

  /** An edit arrives in a room with one client, is accepted and acknowledged. */
  lemma RaceEdit(s: State) returns (t: State)
    requires s.run == Idle && s.clients == {1} && s.pipe == Pipe(Queue(map[], 0, 10), map[], map[], Waiting)
    requires s.inbox == map[]
    ensures t == Next(Next(Next(Next(s, Update(1, KEY, EDIT.delta)), SendAck(true)), FanOut({})), EvictSlow)
    ensures t == s.(pipe := s.pipe.Accept(KEY, EDIT), inbox := t.inbox)
    ensures Inbox(t, 1) == [Ack(KEY, EDIT)] && Inbox(t, 2) == []
  {
    var b := RaceAck(s);
    t := RaceFanOut(b);
    hide Next, Pipe.Accept;
  }

  lemma RaceAck(s: State) returns (b: State)
    requires s.run == Idle && s.clients == {1} && s.pipe == Pipe(Queue(map[], 0, 10), map[], map[], Waiting)
    requires s.inbox == map[]
    ensures b == Next(Next(s, Update(1, KEY, EDIT.delta)), SendAck(true))
    ensures b == s.(pipe := s.pipe.Accept(KEY, EDIT), run := FanningOut(KEY, EDIT), inbox := map[1 := [Ack(KEY, EDIT)]])
  {
    assert |KEY.id| > 0 && |EDIT.delta.base64| > 0;
    assert At(s.pipe.accepted, KEY) == [] && !s.pipe.queue.Full();
    hide Next, Pipe.Accept;
    var a := DoUpdate(s, 1, KEY, EDIT.delta);
    StepIs(s, Update(1, KEY, EDIT.delta));
    StepIs(a, SendAck(true));
    b := DoSendAck(a, true);
    assert Inbox(a, 1) + [Ack(KEY, EDIT)] == [Ack(KEY, EDIT)];
    assert b.inbox == map[1 := [Ack(KEY, EDIT)]];
  }

  lemma RaceFanOut(b: State) returns (t: State)
    requires b.clients == {1} && b.run == FanningOut(KEY, EDIT)
    ensures t == Next(Next(b, FanOut({})), EvictSlow)
    ensures t == b.(run := Idle, inbox := t.inbox) && Inbox(t, 1) == Inbox(b, 1) && Inbox(t, 2) == Inbox(b, 2)
  {
    hide Next;
    var c := DoFanOut(b, {});
    StepIs(b, FanOut({}));
    StepIs(c, EvictSlow);
    t := DoEvictSlow(c);
  }

  /** The edit is flushed. */
  lemma RaceFlush(p: Pipe) returns (q: Pipe)
    requires p == Pipe(Queue(map[], 0, 10), map[], map[], Waiting).Accept(KEY, EDIT)
    ensures q == p.TakeBatch(KEY, 10).AppendOne(Acked).AppendOne(Acked).Commit()
    ensures q.queue.Items(KEY) == [] && At(q.accepted, KEY) == [EDIT] && At(q.log, KEY) == [Own(EDIT)]
  {
    assert p.queue.Items(KEY) == [EDIT];
    assert p.TakeBatch(KEY, 10) == p.(flusher := Appending(KEY, [EDIT], 0));
    var a := p.(flusher := Appending(KEY, [EDIT], 0));
    var b := p.AppendTo(KEY, Own(EDIT)).(flusher := Appending(KEY, [EDIT], 1));
    assert a.AppendOne(Acked) == b && At(b.log, KEY) == [Own(EDIT)];
    hide Pipe.TakeBatch;
    var c := b.(flusher := Committing(KEY, 1));
    assert b.AppendOne(Acked) == c;
    hide Pipe.AppendOne, Pipe.AppendTo;
    q := c.Commit();
  }

  /** The stream is trimmed behind a snapshot that was taken without the edit. */
  lemma RaceCompaction(s: State) returns (t: State)
    requires At(s.pipe.log, KEY) == [Own(EDIT)] && Trimmed(s, KEY) == 0
    ensures t == Next(Next(s, CompactAppend(KEY, SNAPSHOT.data)), CompactTrim(KEY, 1))
    ensures t == s.(pipe := s.pipe.AppendTo(KEY, SNAPSHOT), trimmed := t.trimmed, compactions := t.compactions)
    ensures At(t.pipe.log, KEY) == [Own(EDIT), SNAPSHOT] && Visible(t, KEY) == [SNAPSHOT] && Trimmed(t, KEY) == 1
  {
    var a := Next(s, CompactAppend(KEY, SNAPSHOT.data));
    StepIs(s, CompactAppend(KEY, SNAPSHOT.data));
    StepIs(a, CompactTrim(KEY, 1));
    hide Next;
    t := Next(a, CompactTrim(KEY, 1));
  }

  lemma RaceJoin(t: State) returns (u: State)
    requires 1 in t.jobs && t.jobs[1] == Job(2, KEY, Started) && Inbox(t, 2) == []
    requires Visible(t, KEY) == [SNAPSHOT] && Trimmed(t, KEY) == 1 && t.pipe.queue.Items(KEY) == []
    ensures u == Next(Next(Next(t, ReadPending(1)), ReadStream(1)), SendInit(1, true))
    ensures u.pipe == t.pipe && u.trimmed == t.trimmed
    ensures Inbox(u, 2) == [Init(KEY, [SNAPSHOT.data])] && Inbox(u, 1) == Inbox(t, 1)
  {
    var a := Next(t, ReadPending(1));
    StepIs(t, ReadPending(1));
    StepIs(a, ReadStream(1));
    StepIs(Next(a, ReadStream(1)), SendInit(1, true));
    hide Next;
    assert a.jobs[1].phase == HasPending(|At(t.pipe.accepted, KEY)|, []);
    assert Visible(a, KEY) == [SNAPSHOT];
    var b := Next(a, ReadStream(1));
    assert b.jobs[1].phase == Loaded(|At(t.pipe.accepted, KEY)|, [], 1, [SNAPSHOT]);
    u := Next(b, SendInit(1, true));
    assert DataOf([SNAPSHOT]) + DeltasOf([]) == [SNAPSHOT.data];
  }

  /** The states of the run below, one after each phase. */
  lemma RaceStates(s0: State) returns (s1: State, s2: State, s3: State, s4: State, s5: State, s6: State)
    requires s0 == Fresh(10, 10, map[])
    ensures s1 == Next(s0, Register(1, {}, KEY, 0))
    ensures s2 == Next(Next(Next(Next(s1, Update(1, KEY, EDIT.delta)), SendAck(true)), FanOut({})), EvictSlow)
    ensures s3 == s2.(pipe := s2.pipe.TakeBatch(KEY, 10).AppendOne(Acked).AppendOne(Acked).Commit()) && s2.batchSize == 10
    ensures s4 == Next(Next(s3, CompactAppend(KEY, SNAPSHOT.data)), CompactTrim(KEY, 1))
    ensures s5 == Next(s4, Register(2, {}, KEY, 1))
    ensures s6 == Next(Next(Next(s5, ReadPending(1)), ReadStream(1)), SendInit(1, true))
    ensures At(s6.pipe.accepted, KEY) == [EDIT] && Inbox(s6, 1) == [Ack(KEY, EDIT)]
    ensures Inbox(s6, 2) == [Init(KEY, [SNAPSHOT.data])] && s6.pipe.queue.Items(KEY) == []
    ensures At(s6.pipe.log, KEY) == [Own(EDIT), SNAPSHOT] && Visible(s6, KEY) == [SNAPSHOT]
  {
    s1 := Next(s0, Register(1, {}, KEY, 0));
    assert s1.clients == {1};
    s2 := RaceEdit(s1);
    var q := RaceFlush(s2.pipe);
    s3 := s2.(pipe := q);
    s4 := RaceCompaction(s3);
    s5 := Next(s4, Register(2, {}, KEY, 1));
    s6 := RaceJoin(s5);
  }

  lemma FlushSteps(s: State)
    ensures s.(pipe := s.pipe.TakeBatch(KEY, s.batchSize).AppendOne(Acked).AppendOne(Acked).Commit())
            == Next(Next(Next(Next(s, TakeBatch(KEY)), AppendOne(Acked)), AppendOne(Acked)), Commit)
  {
    hide Pipe.TakeBatch, Pipe.AppendOne, Pipe.Commit;
  }

  /**
   Without it a delta can be lost for good: an edit is accepted, acknowledged and flushed, then a snapshot taken
   without it is appended and the stream trimmed behind the snapshot. Whoever joins now never sees the edit.
   */
  lemma RaceLosesAnEdit() returns (steps: seq<Step>)
    ensures var s := Exec(Fresh(10, 10, map[]), steps);
            && At(s.pipe.accepted, KEY) == [EDIT] && Inbox(s, 1) == [Ack(KEY, EDIT)]
            && Inbox(s, 2) == [Init(KEY, [SNAPSHOT.data])]
            && s.pipe.queue.Items(KEY) == [] && Visible(s, KEY) == [SNAPSHOT]
            && Doc(RaceOps, At(s.pipe.log, KEY)) == {1} && Doc(RaceOps, Visible(s, KEY)) == {}
  {
    hide Next, Fresh, Doc, Visible, Inbox, At, Exec, Queue.Items, Pipe.TakeBatch, Pipe.AppendOne, Pipe.Commit;
    var s0 := Fresh(10, 10, map[]);
    var s1, s2, s3, s4, s5, s6 := RaceStates(s0);
    FlushSteps(s2);
    RaceDocs();
    ExecNothing(s0);
    var s;
    steps, s := StepOn([], s0, s0, Register(1, {}, KEY, 0));
    steps, s := StepOn(steps, s, s0, Update(1, KEY, EDIT.delta));
    steps, s := StepOn(steps, s, s0, SendAck(true));
    steps, s := StepOn(steps, s, s0, FanOut({}));
    steps, s := StepOn(steps, s, s0, EvictSlow);
    steps, s := StepOn(steps, s, s0, TakeBatch(KEY));
    steps, s := StepOn(steps, s, s0, AppendOne(Acked));
    steps, s := StepOn(steps, s, s0, AppendOne(Acked));
    steps, s := StepOn(steps, s, s0, Commit);
    steps, s := StepOn(steps, s, s0, CompactAppend(KEY, SNAPSHOT.data));
    steps, s := StepOn(steps, s, s0, CompactTrim(KEY, 1));
    steps, s := StepOn(steps, s, s0, Register(2, {}, KEY, 1));
    steps, s := StepOn(steps, s, s0, ReadPending(1));
    steps, s := StepOn(steps, s, s0, ReadStream(1));
    steps, s := StepOn(steps, s, s0, SendInit(1, true));
  }

  lemma ExecNothing(s: State)
    ensures Exec(s, []) == s
  {
  }

  lemma RaceDocs()
    ensures Doc(RaceOps, [Own(EDIT), SNAPSHOT]) == {1} && Doc(RaceOps, [SNAPSHOT]) == {}
  {
    assert EDIT.delta != SNAPSHOT.data by {
      assert EDIT.delta.base64[0] != SNAPSHOT.data.base64[0];
    }
    DocConcat(RaceOps, [Own(EDIT)], [SNAPSHOT]);
    DocOne(RaceOps, Own(EDIT));
    DocOne(RaceOps, SNAPSHOT);
    assert [Own(EDIT), SNAPSHOT] == [Own(EDIT)] + [SNAPSHOT];
  }
}
