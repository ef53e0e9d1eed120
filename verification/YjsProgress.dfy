/**
 What a room can always still do: finish with the delta in hand, send a joining client its list, and flush its queue.
 The runs are built step by step, with every call succeeding, and start from any state in which the work at hand is
 under way.
 */
module YjsProgress {
  import opened Basics
  import opened SaveQueue
  import opened TaskStreams
  import opened YjsRoom
  import opened YjsFifo
  import opened YjsJoin
  import opened YjsCoverage

  lemma {:induction false} ExecFirst(s: State, step: Step, rest: seq<Step>)
    ensures Exec(s, [step] + rest) == Exec(Next(s, step), rest)
    decreases |rest|
  {
    hide Next;
    var run := [step] + rest;
    if rest != [] {
      ExecFirst(s, step, rest[..|rest| - 1]);
      assert run[..|run| - 1] == [step] + rest[..|rest| - 1];
    } else {
      assert run[..0] == [];
    }
  }

  lemma {:induction false} ExecConcat(s: State, a: seq<Step>, b: seq<Step>)
    ensures Exec(s, a + b) == Exec(Exec(s, a), b)
    decreases |b|
  {
    hide Next;
    if b != [] {
      ExecConcat(s, a, b[..|b| - 1]);
      assert (a + b)[..|a + b| - 1] == a + b[..|b| - 1];
    } else {
      assert a + b == a;
    }
  }

  lemma One(s: State, step: Step)
    ensures Exec(s, [step]) == Next(s, step)
  {
    hide Next;
    assert [step][..0] == [];
  }

  // The Run loop.

  /** The delta is taken, given its number and its place in the queue, exactly when there is room and nothing is wrong with it. */
  lemma UpdateIsTaken(s: State, author: Client, k: TaskKey, d: Delta)
    requires s.run == Idle && k.id != "" && d.base64 != "" && !s.pipe.queue.Full()
    ensures var t := Next(s, Update(author, k, d));
            var item := Item(|At(s.pipe.accepted, k)|, author, d);
            && t.run == Acking(k, item)
            && At(t.pipe.accepted, k) == At(s.pipe.accepted, k) + [item]
            && t.pipe.queue.Items(k) == s.pipe.queue.Items(k) + [item]
            && t.clients == s.clients && t.inbox == s.inbox && t.jobs == s.jobs
  {
    StepIs(s, Update(author, k, d));
    hide Next;
  }

  /** A delta that cannot be stored is not taken, and nobody hears of it. */
  lemma EmptyUpdateIsIgnored(s: State, author: Client, k: TaskKey, d: Delta)
    requires k.id == "" || d.base64 == ""
    ensures Next(s, Update(author, k, d)) == s
  {
    StepIs(s, Update(author, k, d));
    hide Next;
  }

  /** The author in the room gets its acknowledgement, or, if that cannot be sent, is out; nobody else is touched. */
  lemma AckReachesAuthor(s: State, sent: bool)
    requires s.run.Acking?
    ensures var t, k, item := Next(s, SendAck(sent)), s.run.key, s.run.item;
            && t.run == FanningOut(k, item)
            && (item.author in s.clients && sent ==> t.clients == s.clients && Inbox(t, item.author) == Inbox(s, item.author) + [Ack(k, item)])
            && (item.author in s.clients && !sent ==> t.clients == s.clients - {item.author} && t.inbox == s.inbox)
            && (item.author !in s.clients ==> t == s.(run := FanningOut(k, item)))
            && forall c :: c != item.author ==> Inbox(t, c) == Inbox(s, c)
  {
    StepIs(s, SendAck(sent));
    hide Next;
  }

  /** Fanning out is one message to each of the others that is not slow, and to nobody else. */
  lemma FanOutSends(s: State, slow: set<Client>, c: Client)
    requires s.run.FanningOut?
    ensures var t := Next(s, FanOut(slow));
            && Inbox(t, c) == (if c in s.clients && c !in slow && c != s.run.item.author
                               then Inbox(s, c) + [Live(s.run.key, s.run.item)] else Inbox(s, c))
            && t.clients == s.clients
            && Next(t, EvictSlow).run == Idle && Next(t, EvictSlow).clients <= s.clients
  {
    StepIs(s, FanOut(slow));
    StepIs(Next(s, FanOut(slow)), EvictSlow);
    hide Next;
  }

  lemma ThreeSteps(s: State)
    ensures Exec(s, [SendAck(true), FanOut({}), EvictSlow]) == DoEvictSlow(DoFanOut(DoSendAck(s, true), {}))
  {
    var a, b := Next(s, SendAck(true)), Next(Next(s, SendAck(true)), FanOut({}));
    StepIs(s, SendAck(true));
    StepIs(a, FanOut({}));
    StepIs(b, EvictSlow);
    hide Next, Exec, DoSendAck, DoFanOut, DoEvictSlow;
    One(b, EvictSlow);
    ExecFirst(a, FanOut({}), [EvictSlow]);
    ExecFirst(s, SendAck(true), [FanOut({})] + [EvictSlow]);
    assert [SendAck(true), FanOut({}), EvictSlow] == [SendAck(true)] + ([FanOut({})] + [EvictSlow]);
  }

  lemma AckedThenFannedOut(s: State)
    ensures var a := DoSendAck(s, true);
            && a.clients == s.clients && a.pipe == s.pipe && (!s.run.Acking? ==> a == s)
            && (s.run.Acking? ==> a.run == FanningOut(s.run.key, s.run.item))
    ensures var b := DoFanOut(s, {});
            && b.clients == s.clients && b.pipe == s.pipe && (!s.run.FanningOut? ==> b == s)
            && (s.run.FanningOut? ==>
                  && b.run == Evicting({})
                  && forall c :: c in s.clients && c != s.run.item.author ==> Live(s.run.key, s.run.item) in Inbox(b, c))
  {
  }

  /**
   The Run loop can always finish with the delta in its hand: everybody who stays in the room has it then, unless they
   wrote it, and the loop is free.
   */
  lemma RunLoopFinishes(s: State)
    ensures exists more :: var t := Exec(s, more);
              && t.run == Idle && t.pipe == s.pipe
              && forall c :: Stays(s, c) ==> c in t.clients && (s.run.Acking? || s.run.FanningOut? ==>
                   c == s.run.item.author || Live(s.run.key, s.run.item) in Inbox(t, c))
  {
    ThreeSteps(s);
    AckedThenFannedOut(s);
    AckedThenFannedOut(DoSendAck(s, true));
    var more := [SendAck(true), FanOut({}), EvictSlow];
    hide Exec, DoSendAck, DoFanOut;
    assert Exec(s, more).run == Idle;
  }

  // Joining.

  predicate UnderWay(phase: Phase) {
    !phase.Sent? && !phase.Failed?
  }

  /** One more step of a join whose calls succeed. */
  function JoinStep(phase: Phase, j: nat): Step {
    match phase
    case Started => ReadPending(j)
    case HasPending(_, _) => ReadStream(j)
    case Reseeding(_, _, _) => ReadAgain(j, true)
    case _ => SendInit(j, true)
  }

  function StepsLeft(phase: Phase): nat {
    match phase
    case Started => 4
    case HasPending(_, _) => 3
    case Reseeding(_, _, _) => 2
    case Loaded(_, _, _, _) => 1
    case _ => 0
  }

  lemma ReadGoesOn(s: State, j: nat)
    requires j in s.jobs && UnderWay(s.jobs[j].phase) && !s.jobs[j].phase.Loaded?
    ensures var t := Next(s, JoinStep(s.jobs[j].phase, j));
            && j in t.jobs && t.jobs[j] == s.jobs[j].(phase := t.jobs[j].phase)
            && StepsLeft(t.jobs[j].phase) < StepsLeft(s.jobs[j].phase) && UnderWay(t.jobs[j].phase)
            && t == s.(jobs := t.jobs)
  {
    var step := JoinStep(s.jobs[j].phase, j);
    StepIs(s, step);
    hide Next, Visible, Trimmed, DoSendInit;
  }

  lemma SendGoesOn(s: State, j: nat)
    requires j in s.jobs && s.jobs[j].phase.Loaded?
    ensures var t, Loaded(at, queued, from, entries) := Next(s, SendInit(j, true)), s.jobs[j].phase;
            && t == s.(jobs := s.jobs[j := s.jobs[j].(phase := Sent(at, queued, from, entries))], inbox := t.inbox)
            && Inbox(t, s.jobs[j].client)
               == Inbox(s, s.jobs[j].client) + [Init(s.jobs[j].key, DataOf(entries) + DeltasOf(queued))]
  {
    StepIs(s, SendInit(j, true));
    hide Next, DataOf, DeltasOf;
  }

  lemma JoinGoesOn(s: State, j: nat)
    requires j in s.jobs && UnderWay(s.jobs[j].phase)
    ensures var t := Next(s, JoinStep(s.jobs[j].phase, j));
            && j in t.jobs && t.jobs[j] == s.jobs[j].(phase := t.jobs[j].phase)
            && StepsLeft(t.jobs[j].phase) < StepsLeft(s.jobs[j].phase) && !t.jobs[j].phase.Failed?
            && t == s.(jobs := t.jobs, inbox := t.inbox)
            && (t.jobs[j].phase.Sent? ==>
                  Inbox(t, s.jobs[j].client)
                  == Inbox(s, s.jobs[j].client) + [Init(s.jobs[j].key, DataOf(t.jobs[j].phase.entries) + DeltasOf(t.jobs[j].phase.queued))])
  {
    hide Next, DataOf, DeltasOf, Inbox;
    if s.jobs[j].phase.Loaded? {
      SendGoesOn(s, j);
    } else {
      ReadGoesOn(s, j);
    }
  }

  /** A join under way can always be finished: the client is sent its list, and keeps its place in the room. */
  lemma {:induction false} JoinFinishes(s: State, j: nat) returns (more: seq<Step>)
    requires j in s.jobs && UnderWay(s.jobs[j].phase)
    ensures var t := Exec(s, more);
            && j in t.jobs && t.jobs[j].phase.Sent? && t.jobs[j].client == s.jobs[j].client && t.jobs[j].key == s.jobs[j].key
            && t.clients == s.clients && t.pipe == s.pipe && t.run == s.run
            && Init(t.jobs[j].key, DataOf(t.jobs[j].phase.entries) + DeltasOf(t.jobs[j].phase.queued)) in Inbox(t, t.jobs[j].client)
    decreases StepsLeft(s.jobs[j].phase)
  {
    var step := JoinStep(s.jobs[j].phase, j);
    var t := Next(s, step);
    JoinGoesOn(s, j);
    hide Next, Exec, Inbox, DataOf, DeltasOf, JoinStep;
    if t.jobs[j].phase.Sent? {
      more := [step];
      One(s, step);
    } else {
      var rest := JoinFinishes(t, j);
      more := [step] + rest;
      ExecFirst(s, step, rest);
    }
  }

  /** Whether it is the turn of a read or of the sending in this join. */
  predicate IsDue(s: State, step: Step) {
    match step
    case ReadPending(j) => j in s.jobs && s.jobs[j].phase == Started
    case ReadStream(j) => j in s.jobs && s.jobs[j].phase.HasPending?
    case ReadFails(j) => j in s.jobs && s.jobs[j].phase.HasPending?
    case ReadAgain(j, _) => j in s.jobs && s.jobs[j].phase.Reseeding?
    case SendInit(j, _) => j in s.jobs && s.jobs[j].phase.Loaded?
    case _ => true
  }

  lemma OnlyInTurn(s: State, step: Step)
    requires !IsDue(s, step)
    ensures Next(s, step) == s
  {
    StepIs(s, step);
    hide Next, Visible, Inbox;
  }

  /** The first read takes all that XRANGE shows, unless queue and stream are both empty: then seeding is tried first. */
  lemma FirstReadTakesAll(s: State, j: nat)
    requires IsDue(s, ReadStream(j))
    ensures var k, phase, next := s.jobs[j].key, s.jobs[j].phase, Next(s, ReadStream(j)).jobs[j].phase;
            if phase.queued == [] && Visible(s, k) == [] then next == Reseeding(phase.at, [], Trimmed(s, k))
            else next == Loaded(phase.at, phase.queued, Trimmed(s, k), Visible(s, k))
  {
    StepIs(s, ReadStream(j));
    hide Next, Visible, Trimmed;
  }

  /** The second read takes all that XRANGE shows then; if it fails the list is empty. A first read that fails ends the join. */
  lemma SecondReadTakesAll(s: State, j: nat, ok: bool)
    requires IsDue(s, ReadAgain(j, ok))
    ensures var k, phase, next := s.jobs[j].key, s.jobs[j].phase, Next(s, ReadAgain(j, ok)).jobs[j].phase;
            && next.Loaded? && next.at == phase.at && next.queued == phase.queued
            && next.entries == (if ok then Visible(s, k) else [])
            && (next.entries != [] ==> next.from == Trimmed(s, k)) && (next.entries == [] ==> next.from == phase.from)
  {
    StepIs(s, ReadAgain(j, ok));
    hide Next, Visible, Trimmed;
  }

  lemma FailedReadEndsJoin(s: State, j: nat)
    requires IsDue(s, ReadFails(j))
    ensures Next(s, ReadFails(j)) == s.(jobs := s.jobs[j := s.jobs[j].(phase := Failed)])
  {
    StepIs(s, ReadFails(j));
    hide Next;
  }

  /** The queue is copied when the join begins, before anything is read of the stream. */
  lemma PendingIsCopied(s: State, j: nat)
    requires IsDue(s, ReadPending(j))
    ensures var k := s.jobs[j].key;
            Next(s, ReadPending(j)).jobs[j].phase == HasPending(|At(s.pipe.accepted, k)|, s.pipe.queue.Items(k))
  {
    StepIs(s, ReadPending(j));
    hide Next;
  }

  /** A newcomer is let in whenever the Run loop is free, with a join of its own, and those it displaces are out. */
  lemma NewcomerIsLetIn(s: State, c: Client, displaced: set<Client>, k: TaskKey, j: nat)
    requires s.run == Idle && c !in s.joined && j !in s.jobs
    ensures var t := Next(s, Register(c, displaced, k, j));
            && t.clients == s.clients - displaced + {c} && t.jobs == s.jobs[j := Job(c, k, Started)]
            && t.joined == s.joined[c := s.pipe.accepted]
  {
    StepIs(s, Register(c, displaced, k, j));
    hide Next;
  }

  /** A client in the room that switches to another task gets a join for it; one that has left gets none. */
  lemma SwitchStartsJoin(s: State, c: Client, k: TaskKey, j: nat)
    ensures Next(s, StartInit(c, k, j)) == if c in s.clients && j !in s.jobs then s.(jobs := s.jobs[j := Job(c, k, Started)]) else s
  {
    StepIs(s, StartInit(c, k, j));
    hide Next;
  }

  // Flushing.

  function Owns(items: seq<Item>): (r: seq<Entry>)
    ensures |r| == |items| && forall i :: 0 <= i < |r| ==> r[i] == Own(items[i])
  {
    seq(|items|, i requires 0 <= i < |items| => Own(items[i]))
  }

  function Appended(log: map<TaskKey, seq<Entry>>, k: TaskKey, es: seq<Entry>): map<TaskKey, seq<Entry>> {
    if es == [] then log else log[k := At(log, k) + es]
  }

  lemma AppendedTwice(log: map<TaskKey, seq<Entry>>, k: TaskKey, a: seq<Entry>, b: seq<Entry>)
    ensures Appended(Appended(log, k, a), k, b) == Appended(log, k, a + b)
  {
    assert a == [] ==> a + b == b;
    assert b == [] ==> a + b == a;
    assert At(log, k) + a + b == At(log, k) + (a + b);
  }

  lemma OneAppends(s: State)
    requires s.pipe.flusher.Appending? && s.pipe.flusher.done <= |s.pipe.flusher.batch|
    ensures var Appending(k, batch, done) := s.pipe.flusher;
            Next(s, AppendOne(Acked))
            == if done == |batch| then s.(pipe := s.pipe.(flusher := Committing(k, done)))
               else s.(pipe := s.pipe.(flusher := Appending(k, batch, done + 1), log := Appended(s.pipe.log, k, [Own(batch[done])])))
  {
    StepIs(s, AppendOne(Acked));
    hide Next;
  }

  /** The flusher takes a batch only when it is free and there is something to take. */
  lemma TakesIff(s: State, k: TaskKey)
    ensures var t := Next(s, TakeBatch(k));
            if s.pipe.flusher == Waiting && s.pipe.queue.Items(k) != []
            then t == s.(pipe := s.pipe.(flusher := Appending(k, s.pipe.queue.Batch(k, s.batchSize), 0)))
            else t == s
  {
    StepIs(s, TakeBatch(k));
    hide Next;
  }

  /** The rest of a batch is appended, one delta after the other, and then waits for its commit. */
  lemma {:induction false} BatchAppends(s: State) returns (more: seq<Step>)
    requires s.pipe.flusher.Appending? && s.pipe.flusher.done <= |s.pipe.flusher.batch|
    ensures var Appending(k, batch, done) := s.pipe.flusher;
            Exec(s, more) == s.(pipe := s.pipe.(flusher := Committing(k, |batch|), log := Appended(s.pipe.log, k, Owns(batch[done..]))))
    decreases |s.pipe.flusher.batch| - s.pipe.flusher.done
  {
    var Appending(k, batch, done) := s.pipe.flusher;
    var t := Next(s, AppendOne(Acked));
    OneAppends(s);
    hide Next, Exec, At;
    if done == |batch| {
      more := [AppendOne(Acked)];
      One(s, AppendOne(Acked));
      assert Owns(batch[done..]) == [];
    } else {
      var rest := BatchAppends(t);
      more := [AppendOne(Acked)] + rest;
      ExecFirst(s, AppendOne(Acked), rest);
      assert Owns(batch[done..]) == [Own(batch[done])] + Owns(batch[done + 1..]);
      AppendedTwice(s.pipe.log, k, [Own(batch[done])], Owns(batch[done + 1..]));
    }
  }

  /** A whole round of the flusher on one task: its first batch moves from the queue to the end of the stream. */
  lemma RoundFlushes(s: State, k: TaskKey) returns (more: seq<Step>)
    requires s.pipe.flusher == Waiting && s.pipe.queue.Items(k) != [] && s.batchSize > 0
    ensures var t, batch := Exec(s, more), s.pipe.queue.Batch(k, s.batchSize);
            && batch != []
            && t == s.(pipe := s.pipe.(queue := s.pipe.queue.CommitBatch(k, |batch|), log := Appended(s.pipe.log, k, Owns(batch))))
  {
    var batch := s.pipe.queue.Batch(k, s.batchSize);
    var a := s.(pipe := s.pipe.(flusher := Appending(k, batch, 0)));
    StepIs(s, TakeBatch(k));
    assert Next(s, TakeBatch(k)) == a;
    assert batch[0..] == batch && batch != [];
    hide Next, Exec, Queue.CommitBatch, Queue.Batch, Queue.Items, Owns, Appended;
    var rest := BatchAppends(a);
    var b := Exec(a, rest);
    StepIs(b, Commit);
    more := [TakeBatch(k)] + (rest + [Commit]);
    ExecFirst(s, TakeBatch(k), rest + [Commit]);
    ExecConcat(a, rest, [Commit]);
    One(b, Commit);
  }

  /** The stream of the task has got just what was waiting for it, and nothing else has changed. */
  ghost predicate Flushed(s: State, t: State, k: TaskKey) {
    && t.pipe.queue.Items(k) == []
    && t == s.(pipe := s.pipe.(queue := t.pipe.queue, log := Appended(s.pipe.log, k, Owns(s.pipe.queue.Items(k)))))
    && t.pipe.queue.WellFormed()
    && forall x :: x != k ==> t.pipe.queue.Items(x) == s.pipe.queue.Items(x)
  }

  lemma FlushedOnward(s: State, t: State, u: State, k: TaskKey, batch: seq<Item>)
    requires t == s.(pipe := s.pipe.(queue := t.pipe.queue, log := Appended(s.pipe.log, k, Owns(batch))))
    requires s.pipe.queue.Items(k) == batch + t.pipe.queue.Items(k)
    requires forall x :: x != k ==> t.pipe.queue.Items(x) == s.pipe.queue.Items(x)
    requires Flushed(t, u, k)
    ensures Flushed(s, u, k)
  {
    assert Owns(s.pipe.queue.Items(k)) == Owns(batch) + Owns(t.pipe.queue.Items(k));
    AppendedTwice(s.pipe.log, k, Owns(batch), Owns(t.pipe.queue.Items(k)));
    hide Appended, Owns, Queue.Items, Queue.WellFormed;
  }

  /** Whatever waits for a task can always be flushed, all of it and in order, when the flusher is free. */
  lemma {:induction false} QueueCanBeFlushed(s: State, k: TaskKey) returns (more: seq<Step>)
    requires s.pipe.flusher == Waiting && s.batchSize > 0 && s.pipe.queue.WellFormed()
    ensures Flushed(s, Exec(s, more), k)
    decreases |s.pipe.queue.Items(k)|
  {
    var items := s.pipe.queue.Items(k);
    if items == [] {
      more := [];
    } else {
      var batch := s.pipe.queue.Batch(k, s.batchSize);
      assert items == batch + items[|batch|..];
      CommitKeeps(s.pipe.queue, k, |batch|);
      hide Exec, Queue.CommitBatch, Queue.WellFormed, Queue.Batch, Queue.Items, Owns, Appended, Flushed;
      var round := RoundFlushes(s, k);
      var t := Exec(s, round);
      var rest := QueueCanBeFlushed(t, k);
      more := round + rest;
      ExecConcat(s, round, rest);
      FlushedOnward(s, t, Exec(s, more), k, batch);
    }
  }

  /** A flusher in the middle of a batch can always finish it. */
  lemma FlusherFinishes(s: State) returns (more: seq<Step>)
    requires Batched(s.pipe)
    ensures Exec(s, more).pipe.flusher == Waiting
  {
    if s.pipe.flusher.Waiting? {
      more := [];
    } else if s.pipe.flusher.Committing? {
      more := [Commit];
      StepIs(s, Commit);
      One(s, Commit);
    } else {
      var rest := BatchAppends(s);
      var b := Exec(s, rest);
      StepIs(b, Commit);
      hide Next, Exec;
      more := rest + [Commit];
      ExecConcat(s, rest, [Commit]);
      One(b, Commit);
    }
  }
}
