/**
 Registration and fan-out against the yjs.init list: a client that stays in the room misses no accepted delta.
 A client is registered before its list is read, so a delta accepted up to that moment must be in the list and a later
 one must come live. In between, a delta can be accepted and still be in the hands of the Run loop, and a client can be
 marked for eviction; the invariant names both.
 */
module YjsCoverage {
  import opened SaveQueue
  import opened TaskStreams
  import opened YjsRoom
  import opened YjsFifo
  import opened YjsJoin

  ghost predicate IsAccepted(s: State, k: TaskKey, item: Item) {
    item.no < |At(s.pipe.accepted, k)| && At(s.pipe.accepted, k)[item.no] == item
  }

  /** The Run loop has accepted the delta and not fanned it out yet. */
  predicate HeldByRun(run: RunLoop, k: TaskKey, item: Item) {
    run == Acking(k, item) || run == FanningOut(k, item)
  }

  predicate BeingEvicted(run: RunLoop, c: Client) {
    run.Evicting? && c in run.slow
  }

  /** The delta came to the client live, is its own, or is in the hands of the Run loop, which sends it next. */
  ghost predicate Otherwise(s: State, c: Client, k: TaskKey, item: Item) {
    Live(k, item) in Inbox(s, c) || item.author == c || HeldByRun(s.run, k, item)
  }

  ghost predicate Covered(s: State, c: Client, k: TaskKey, item: Item) {
    || (c in s.joined && item.no < |At(s.joined[c], k)|)
    || Otherwise(s, c, k, item)
    || BeingEvicted(s.run, c)
  }

  /** Every accepted delta was there when the client registered, or has come or is about to come to it live. */
  ghost predicate ClientsInv(s: State) {
    && s.clients <= s.joined.Keys
    && forall c, k, item {:trigger Covered(s, c, k, item)} :: c in s.clients && IsAccepted(s, k, item) ==> Covered(s, c, k, item)
  }

  /** Only accepted deltas are acknowledged or sent live. */
  ghost predicate InboxInv(s: State) {
    && (forall c, k, item :: Live(k, item) in Inbox(s, c) ==> IsAccepted(s, k, item))
    && (forall c, k, item :: Ack(k, item) in Inbox(s, c) ==> IsAccepted(s, k, item))
    && (forall k, item :: HeldByRun(s.run, k, item) ==> IsAccepted(s, k, item))
  }

  lemma AcceptedStays(s: State, t: State, k: TaskKey, item: Item)
    requires Grows(s.pipe, t.pipe) && IsAccepted(s, k, item)
    ensures IsAccepted(t, k, item)
  {
    assert KeyGrows(s.pipe, t.pipe, k);
    hide Written;
  }

  lemma InboxKeeps(s: State, step: Step)
    requires Inv(s.pipe) && InboxInv(s)
    ensures InboxInv(Next(s, step))
  {
    var t := Next(s, step);
    NextGrows(s, step);
    hide Inv, Grows, IsAccepted;
    NewMessages(s, step);
    hide Next;
    forall c, k, item | Live(k, item) in Inbox(t, c) ensures IsAccepted(t, k, item) {
      AcceptedStays(s, t, k, item);
    }
    forall c, k, item | Ack(k, item) in Inbox(t, c) ensures IsAccepted(t, k, item) {
      AcceptedStays(s, t, k, item);
    }
    forall k, item | HeldByRun(t.run, k, item) ensures IsAccepted(t, k, item) {
      if !HeldByRun(s.run, k, item) {
        NewlyHeld(s, step, k, item);
      } else {
        AcceptedStays(s, t, k, item);
      }
    }
  }

  /** A live copy or an acknowledgement appears only for the delta the Run loop holds. */
  ghost predicate OnlyHeld(s: State, t: State) {
    && (forall c, k, item :: Live(k, item) in Inbox(t, c) ==> Live(k, item) in Inbox(s, c) || HeldByRun(s.run, k, item))
    && (forall c, k, item :: Ack(k, item) in Inbox(t, c) ==> Ack(k, item) in Inbox(s, c) || HeldByRun(s.run, k, item))
  }

  lemma UpdateMessages(s: State, author: Client, k: TaskKey, d: Delta)
    ensures OnlyHeld(s, DoUpdate(s, author, k, d))
  {
    hide Pipe.Accept;
  }

  lemma AckMessages(s: State, sent: bool)
    ensures OnlyHeld(s, DoSendAck(s, sent))
  {
  }

  lemma FanOutMessages(s: State, slow: set<Client>)
    ensures OnlyHeld(s, DoFanOut(s, slow))
  {
  }

  lemma InitMessage(s: State, j: nat, sent: bool)
    ensures OnlyHeld(s, DoSendInit(s, j, sent))
  {
    hide DataOf, DeltasOf;
  }

  lemma NewMessages(s: State, step: Step)
    ensures OnlyHeld(s, Next(s, step))
  {
    StepIs(s, step);
    StepFrame(s, step);
    hide Next;
    match step {
      case Update(author, k, d) => UpdateMessages(s, author, k, d);
      case SendAck(sent) => AckMessages(s, sent);
      case FanOut(slow) => FanOutMessages(s, slow);
      case SendInit(j, sent) => InitMessage(s, j, sent);
      case _ =>
    }
    hide DoUpdate, DoSendAck, DoFanOut, DoSendInit;
  }

  lemma NewlyHeld(s: State, step: Step, k: TaskKey, item: Item)
    requires HeldByRun(Next(s, step).run, k, item) && !HeldByRun(s.run, k, item)
    ensures IsAccepted(Next(s, step), k, item)
  {
    StepFrame(s, step);
    if IsRunStep(step) {
      StepIs(s, step);
    }
    hide Next, Inbox;
  }

  lemma NewlyAccepted(s: State, step: Step, k: TaskKey, item: Item)
    requires IsAccepted(Next(s, step), k, item) && !IsAccepted(s, k, item)
    ensures HeldByRun(Next(s, step).run, k, item)
  {
    StepFrame(s, step);
    hide Queue.Enqueue;
    if step.Update? {
      hide Inbox;
    } else {
      hide Next;
    }
  }

  lemma CoverStays(s: State, step: Step, c: Client, k: TaskKey, item: Item)
    requires Covered(s, c, k, item) && c in s.clients && c in Next(s, step).clients && c in s.joined
    ensures Covered(Next(s, step), c, k, item)
  {
    NextOutward(s, step);
    StepFrame(s, step);
    if IsRunStep(step) {
      RunCoverStays(s, step, c, k, item);
    }
    hide Next, Inbox;
  }

  lemma RunCoverStays(s: State, step: Step, c: Client, k: TaskKey, item: Item)
    requires IsRunStep(step) && Outward(s, Next(s, step))
    requires Covered(s, c, k, item) && c in s.clients && c in Next(s, step).clients && c in s.joined
    ensures Covered(Next(s, step), c, k, item)
  {
    StepIs(s, step);
    if step.FanOut? && s.run == FanningOut(k, item) {
      FanOutDelivers(s, step.slow, c, k, item);
    }
    hide Next, Inbox, Pipe.Accept;
  }

  lemma FanOutDelivers(s: State, slow: set<Client>, c: Client, k: TaskKey, item: Item)
    requires s.run == FanningOut(k, item) && c in s.clients
    ensures var t := DoFanOut(s, slow);
            Live(k, item) in Inbox(t, c) || item.author == c || BeingEvicted(t.run, c)
  {
  }

  lemma NewClient(s: State, step: Step, c: Client, k: TaskKey, item: Item)
    requires c in Next(s, step).clients && c !in s.clients && IsAccepted(s, k, item)
    ensures Covered(Next(s, step), c, k, item)
  {
    StepFrame(s, step);
    hide Next, Inbox;
  }

  lemma ClientsKeep(s: State, step: Step)
    requires Inv(s.pipe) && JobsInv(s) && ClientsInv(s)
    ensures ClientsInv(Next(s, step))
  {
    hide Next, Inv, Covered, IsAccepted, JobOk;
    var t := Next(s, step);
    ClientsJoined(s, step);
    forall c, k, item {:trigger Covered(t, c, k, item)} | c in t.clients && IsAccepted(t, k, item)
      ensures Covered(t, c, k, item)
    {
      if !IsAccepted(s, k, item) {
        NewlyAccepted(s, step, k, item);
        HeldIsCovered(t, c, k, item);
      } else if c !in s.clients {
        NewClient(s, step, c, k, item);
      } else {
        CoverStays(s, step, c, k, item);
      }
    }
  }

  lemma HeldIsCovered(s: State, c: Client, k: TaskKey, item: Item)
    requires HeldByRun(s.run, k, item)
    ensures Covered(s, c, k, item)
  {
  }

  lemma {:induction false} CoverageHolds(maxSize: nat, batchSize: nat, history: map<TaskKey, seq<Delta>>, steps: seq<Step>)
    ensures ClientsInv(Exec(Fresh(maxSize, batchSize, history), steps))
    ensures InboxInv(Exec(Fresh(maxSize, batchSize, history), steps))
    decreases |steps|
  {
    if steps != [] {
      hide JobsInv, Inv, Next, ClientsInv, InboxInv;
      var before := steps[..|steps| - 1];
      CoverageHolds(maxSize, batchSize, history, before);
      DurableFifo(maxSize, batchSize, history, before);
      JobsHold(maxSize, batchSize, history, before);
      ClientsKeep(Exec(Fresh(maxSize, batchSize, history), before), steps[|steps| - 1]);
      InboxKeeps(Exec(Fresh(maxSize, batchSize, history), before), steps[|steps| - 1]);
    }
  }

  /** Whatever the Run loop has accepted is worth an XADD: the flusher's appends of it are never skipped. */
  ghost predicate AllStorable(s: State) {
    && (forall k, item :: item in At(s.pipe.accepted, k) ==> Storable(true, k, item.delta))
    && (s.run.Acking? || s.run.FanningOut? ==> Storable(true, s.run.key, s.run.item.delta))
  }

  lemma StorableNext(s: State, step: Step)
    requires AllStorable(s)
    ensures AllStorable(Next(s, step))
  {
    var t := Next(s, step);
    StepFrame(s, step);
    StepIs(s, step);
    hide Next, Inbox, Queue.Enqueue;
    if step.Update? && t.pipe.accepted != s.pipe.accepted {
      assert forall k, item :: item in At(t.pipe.accepted, k) ==> item in At(s.pipe.accepted, k) || (k == step.key && item.delta == step.data);
    }
  }

  lemma {:induction false} AcceptedIsStorable(maxSize: nat, batchSize: nat, history: map<TaskKey, seq<Delta>>, steps: seq<Step>)
    ensures AllStorable(Exec(Fresh(maxSize, batchSize, history), steps))
    decreases |steps|
  {
    if steps != [] {
      hide AllStorable, Next;
      AcceptedIsStorable(maxSize, batchSize, history, steps[..|steps| - 1]);
      StorableNext(Exec(Fresh(maxSize, batchSize, history), steps[..|steps| - 1]), steps[|steps| - 1]);
    }
  }

  // Who stays in the room.

  /** The client is in the room and will still be when the Run loop is done with the delta in hand. */
  ghost predicate Stays(s: State, c: Client) {
    c in s.clients && !BeingEvicted(s.run, c)
  }

  /** The step costs a client in the room its place: it leaves, is displaced, is slow to receive, or a send to it fails. */
  predicate Ousts(s: State, step: Step, c: Client) {
    && c in s.clients
    && match step
       case Leave(leaving) => c == leaving
       case Register(newcomer, displaced, _, job) =>
         s.run == Idle && newcomer !in s.joined && job !in s.jobs && c in displaced && c != newcomer
       case SendAck(sent) => !sent && s.run.Acking? && c == s.run.item.author
       case FanOut(slow) => s.run.FanningOut? && c in slow && c != s.run.item.author
       case SendInit(j, sent) => !sent && j in s.jobs && s.jobs[j].phase.Loaded? && c == s.jobs[j].client
       case _ => false
  }

  lemma RunStepOusts(s: State, step: Step, c: Client)
    requires IsRunStep(step) && c in s.joined
    ensures Stays(Next(s, step), c) <==> Stays(s, c) && !Ousts(s, step, c)
  {
    StepIs(s, step);
    hide Next, Pipe.Accept, Inbox;
  }

  lemma DoorStepOusts(s: State, step: Step, c: Client)
    requires IsDoorStep(step) && c in s.joined
    ensures Stays(Next(s, step), c) <==> Stays(s, c) && !Ousts(s, step, c)
  {
    StepIs(s, step);
    hide Next;
  }

  lemma SendInitOusts(s: State, j: nat, sent: bool, c: Client)
    requires c in s.joined
    ensures Stays(Next(s, SendInit(j, sent)), c) <==> Stays(s, c) && !Ousts(s, SendInit(j, sent), c)
  {
    StepIs(s, SendInit(j, sent));
    hide Next, Inbox, DataOf, DeltasOf;
  }

  /** Of a registered client: one step keeps its place exactly when it does not cost it. */
  lemma StepOusts(s: State, step: Step, c: Client)
    requires c in s.joined
    ensures Stays(Next(s, step), c) <==> Stays(s, c) && !Ousts(s, step, c)
  {
    if IsRunStep(step) {
      RunStepOusts(s, step, c);
    } else if IsDoorStep(step) {
      DoorStepOusts(s, step, c);
    } else if step.SendInit? {
      SendInitOusts(s, step.job, step.sent, c);
    } else if IsReadStep(step) {
      ReadStepFrame(s, step);
    } else {
      PipeStepFrame(s, step);
    }
    hide Next, Ousts;
  }

  /** Registering puts a client into the room. */
  lemma JoinsToStay(s: State, step: Step, c: Client)
    requires c !in s.joined && c in Next(s, step).joined
    ensures Stays(Next(s, step), c)
  {
    StepFrame(s, step);
    StepIs(s, step);
    hide Next;
  }

  /** Some step of the run cost the client its place. */
  ghost predicate Ousted(s0: State, steps: seq<Step>, c: Client) {
    exists n :: 0 <= n < |steps| && Ousts(Exec(s0, steps[..n]), steps[n], c)
  }

  lemma OustedNext(s0: State, steps: seq<Step>, c: Client)
    requires steps != []
    ensures var before := steps[..|steps| - 1];
            Ousted(s0, steps, c) <==> Ousted(s0, before, c) || Ousts(Exec(s0, before), steps[|steps| - 1], c)
  {
    hide Exec, Ousts;
    var before := steps[..|steps| - 1];
    assert forall n :: 0 <= n < |before| ==> before[..n] == steps[..n] && before[n] == steps[n];
  }

  /**
   Who stays. In every run a registered client is in the room, and not about to be evicted, exactly when it has not left,
   has not been displaced, was never slow while a delta of somebody else was being sent to it, and no acknowledgement or
   yjs.init to it failed.
   */
  lemma {:induction false} InRoomIff(maxSize: nat, batchSize: nat, history: map<TaskKey, seq<Delta>>, steps: seq<Step>, c: Client)
    ensures var s0 := Fresh(maxSize, batchSize, history);
            && (c in Exec(s0, steps).joined ==> (Stays(Exec(s0, steps), c) <==> !Ousted(s0, steps, c)))
            && (c !in Exec(s0, steps).joined ==> !Ousted(s0, steps, c))
    decreases |steps|
  {
    var s0 := Fresh(maxSize, batchSize, history);
    if steps != [] {
      var before, step := steps[..|steps| - 1], steps[|steps| - 1];
      var s := Exec(s0, before);
      InRoomIff(maxSize, batchSize, history, before, c);
      OustedNext(s0, steps, c);
      CoverageHolds(maxSize, batchSize, history, before);
      hide Fresh, Next, Ousted, Stays, InboxInv, Covered, IsAccepted;
      if c in s.joined {
        StepOusts(s, step, c);
        NextOutward(s, step);
      } else {
        assert !Ousts(s, step, c);
        if c in Next(s, step).joined {
          JoinsToStay(s, step, c);
        }
      }
    }
  }

  /** A delta that is fanned out reaches every other client that is not slow, and leaves it in the room. */
  lemma FanOutReaches(s: State, k: TaskKey, item: Item, slow: set<Client>, c: Client)
    requires s.run == FanningOut(k, item) && c in s.clients && c != item.author && c !in slow
    ensures var t := Next(Next(s, FanOut(slow)), EvictSlow); c in t.clients && Live(k, item) in Inbox(t, c)
  {
    StepIs(s, FanOut(slow));
    StepIs(Next(s, FanOut(slow)), EvictSlow);
    hide Next;
  }

  /**
   Client coverage. In every run, for a client in the room that is not about to be evicted and has been sent a
   yjs.init read from an untrimmed stream: each delta this replica has accepted for the task is in that list, was
   sent to it live, was written by it, or is in the hands of the Run loop, which sends it next. A list read after a trim
   is the subject of YjsCompaction.
   */
  lemma NothingMissed(maxSize: nat, batchSize: nat, history: map<TaskKey, seq<Delta>>, steps: seq<Step>, j: nat, i: nat)
    requires var s := Exec(Fresh(maxSize, batchSize, history), steps);
             && j in s.jobs && s.jobs[j].phase.Sent? && s.jobs[j].phase.from == 0
             && s.jobs[j].client in s.clients && !BeingEvicted(s.run, s.jobs[j].client)
             && i < |At(s.pipe.accepted, s.jobs[j].key)|
    ensures var s := Exec(Fresh(maxSize, batchSize, history), steps);
            var Job(c, k, Sent(_, queued, _, entries)) := s.jobs[j];
            var item := At(s.pipe.accepted, k)[i];
            && Init(k, DataOf(entries) + DeltasOf(queued)) in Inbox(s, c)
            && (item.delta in DataOf(entries) + DeltasOf(queued) || Otherwise(s, c, k, item))
  {
    var s := Exec(Fresh(maxSize, batchSize, history), steps);
    var Job(c, k, Sent(at, queued, _, entries)) := s.jobs[j];
    var item := At(s.pipe.accepted, k)[i];
    hide Exec, Fresh;
    DurableFifo(maxSize, batchSize, history, steps);
    JobsHold(maxSize, batchSize, history, steps);
    CoverageHolds(maxSize, batchSize, history, steps);
    SentIsCovered(s, j);
    assert JobOk(s, s.jobs[j]);
    KeyNumbered(s.pipe, k);
    hide Inv, JobsInv, InboxInv, ClientsInv;
    if i < at {
      InList(At(s.pipe.accepted, k), at, queued, entries, i);
    }
  }

  /** The list has been sent, and what was accepted after the queue was read came by another way. */
  lemma SentIsCovered(s: State, j: nat)
    requires Inv(s.pipe) && JobsInv(s) && ClientsInv(s) && j in s.jobs && s.jobs[j].phase.Sent?
    ensures var Job(c, k, Sent(at, queued, _, entries)) := s.jobs[j];
            && Init(k, DataOf(entries) + DeltasOf(queued)) in Inbox(s, c)
            && (c in s.clients && !BeingEvicted(s.run, c) ==>
                  forall i :: at <= i < |At(s.pipe.accepted, k)| ==> Otherwise(s, c, k, At(s.pipe.accepted, k)[i]))
  {
    var Job(c, k, Sent(at, queued, _, entries)) := s.jobs[j];
    assert JobOk(s, s.jobs[j]);
    KeyNumbered(s.pipe, k);
    hide Inv, JobsInv;
    if c in s.clients && !BeingEvicted(s.run, c) {
      forall i | at <= i < |At(s.pipe.accepted, k)| ensures Otherwise(s, c, k, At(s.pipe.accepted, k)[i]) {
        var item := At(s.pipe.accepted, k)[i];
        assert IsAccepted(s, k, item);
        assert Covered(s, c, k, item);
      }
    }
  }

  /** The two parts of the list together hold everything accepted before the queue was read. */
  lemma InList(acc: seq<Item>, at: nat, queued: seq<Item>, entries: seq<Entry>, i: nat)
    requires Numbered(acc) && Snapshot(acc, at, queued) && ReadOk(acc, at, queued, 0, entries) && i < at
    ensures acc[i].delta in DataOf(entries) + DeltasOf(queued)
  {
    if i < at - |queued| {
      WrittenIsIn(entries, acc, i);
      var e := Own(acc[i]);
      var n :| 0 <= n < |entries| && entries[n] == e;
      assert DataOf(entries)[n] == acc[i].delta;
    } else {
      assert DeltasOf(queued)[i - (at - |queued|)] == acc[i].delta;
    }
  }

  /** A delta that was acknowledged to its author is in the stream or still queued. */
  lemma AckedIsDurable(maxSize: nat, batchSize: nat, history: map<TaskKey, seq<Delta>>, steps: seq<Step>,
                       c: Client, k: TaskKey, item: Item)
    requires var s := Exec(Fresh(maxSize, batchSize, history), steps);
             Ack(k, item) in Inbox(s, c) || Live(k, item) in Inbox(s, c)
    ensures var s := Exec(Fresh(maxSize, batchSize, history), steps);
            item in s.pipe.queue.Items(k) || Own(item) in At(s.pipe.log, k)
  {
    var s := Exec(Fresh(maxSize, batchSize, history), steps);
    DurableFifo(maxSize, batchSize, history, steps);
    CoverageHolds(maxSize, batchSize, history, steps);
    hide Inv, ClientsInv, Exec, Fresh;
    assert IsAccepted(s, k, item);
    AcceptedIsKept(s.pipe, k, item.no);
  }

  /** With the queue full the delta is not taken, not acknowledged and not passed on: its author gets an error. */
  lemma RefusedIsSilent(s: State, author: Client, k: TaskKey, d: Delta)
    requires s.run == Idle && k.id != "" && d.base64 != ""
    ensures var t := Next(s, Update(author, k, d));
            && (s.pipe.queue.Full() <==> t.run == Idle)
            && (s.pipe.queue.Full() ==>
                  && t.pipe == s.pipe && t.clients == s.clients
                  && forall c :: Inbox(t, c) == Inbox(s, c) + if c == author && c in s.clients then [SyncFailed(k)] else [])
  {
  }
}
