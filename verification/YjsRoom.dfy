/**
 One room on one replica as atomic steps: the Run loop, the flusher, any number of yjs.init jobs and compactions,
 and the other replicas that write to the same streams. Every interleaving is a sequence of steps.
 */
module YjsRoom {
  import opened Basics
  import opened SaveQueue
  import opened TaskStreams

  type Client = nat

  /** An accepted delta. no is its position in the acceptance order of its task; no step looks at it. */
  datatype Item = Item(no: nat, author: Client, delta: Delta)

  datatype Entry = Own(item: Item) | Other(data: Delta) {
    function Data(): Delta {
      match this
      case Own(item) => item.delta
      case Other(data) => data
    }
  }

  datatype Message =
    | Live(key: TaskKey, item: Item)
    | Ack(key: TaskKey, item: Item)
    | SyncFailed(key: TaskKey)
    | Init(key: TaskKey, updates: seq<Delta>)

  /** There is one flusher: it appends a batch, then commits what was acknowledged. */
  datatype Flusher =
    | Waiting
    | Appending(key: TaskKey, batch: seq<Item>, done: nat)
    | Committing(key: TaskKey, done: nat)

  /** Where the Run loop is in the handling of one message; between messages it is Idle. */
  datatype RunLoop =
    | Idle
    | Acking(key: TaskKey, item: Item)
    | FanningOut(key: TaskKey, item: Item)
    | Evicting(slow: set<Client>)

  /**
   A yjs.init in the making. at is how many deltas had been accepted when the queue was read, and from is how much of
   the stream had been trimmed away when it was read; both are for the proofs only.
   */
  datatype Phase =
    | Started
    | HasPending(at: nat, queued: seq<Item>)
    | Reseeding(at: nat, queued: seq<Item>, from: nat)
    | Loaded(at: nat, queued: seq<Item>, from: nat, entries: seq<Entry>)
    | Sent(at: nat, queued: seq<Item>, from: nat, entries: seq<Entry>)
    | Failed

  datatype Job = Job(client: Client, key: TaskKey, phase: Phase)

  /** The path of a delta: accepted, queued, appended. log is everything ever appended to each stream. */
  datatype Pipe = Pipe(
    queue: Queue<Item>,
    accepted: map<TaskKey, seq<Item>>,
    log: map<TaskKey, seq<Entry>>,
    flusher: Flusher)
  {
    function AppendTo(k: TaskKey, e: Entry): Pipe {
      this.(log := log[k := At(log, k) + [e]])
    }

    function Accept(k: TaskKey, item: Item): Pipe {
      this.(queue := queue.Enqueue(k, item), accepted := accepted[k := At(accepted, k) + [item]])
    }

    function TakeBatch(k: TaskKey, batchSize: nat): Pipe {
      if flusher != Waiting || queue.Items(k) == [] then this
      else this.(flusher := Appending(k, queue.Batch(k, batchSize), 0))
    }

    function AppendOne(reply: Reply): Pipe {
      match flusher
      case Appending(k, batch, done) =>
        if done >= |batch| then this.(flusher := Committing(k, done))
        else
          var t := if reply == Refused then this else AppendTo(k, Own(batch[done]));
          t.(flusher := if reply == Acked then Appending(k, batch, done + 1) else Committing(k, done))
      case _ => this
    }

    function Commit(): Pipe {
      match flusher
      case Committing(k, done) => this.(queue := queue.CommitBatch(k, done), flusher := Waiting)
      case _ => this
    }
  }

  datatype State = State(
    pipe: Pipe,
    batchSize: nat,
    trimmed: map<TaskKey, nat>,          // how much of each stream XTRIM has removed
    run: RunLoop,
    clients: set<Client>,
    joined: map<Client, map<TaskKey, seq<Item>>>,  // what had been accepted when each client registered
    inbox: map<Client, seq<Message>>,
    jobs: map<nat, Job>,
    compactions: set<(TaskKey, nat)>)    // snapshots appended whose XTRIM has not run

  datatype Step =
    | Update(author: Client, key: TaskKey, data: Delta)
    | SendAck(sent: bool)
    | FanOut(slow: set<Client>)
    | EvictSlow
    | Register(client: Client, displaced: set<Client>, key: TaskKey, job: nat)
    | Leave(client: Client)
    | StartInit(client: Client, key: TaskKey, job: nat)
    | ReadPending(job: nat)
    | ReadStream(job: nat)
    | ReadFails(job: nat)
    | ReadAgain(job: nat, ok: bool)
    | SendInit(job: nat, sent: bool)
    | TakeBatch(key: TaskKey)
    | AppendOne(reply: Reply)
    | Commit
    | OtherAppend(key: TaskKey, data: Delta)
    | Seed(key: TaskKey, data: Delta)
    | CompactAppend(key: TaskKey, snapshot: Delta)
    | CompactTrim(key: TaskKey, at: nat)

  function At<T>(m: map<TaskKey, seq<T>>, k: TaskKey): seq<T> {
    if k in m then m[k] else []
  }

  function Trimmed(s: State, k: TaskKey): nat {
    if k in s.trimmed then s.trimmed[k] else 0
  }

  /** What XRANGE - + returns. */
  function Visible(s: State, k: TaskKey): seq<Entry> {
    var n, log := Trimmed(s, k), At(s.pipe.log, k);
    if n <= |log| then log[n..] else []
  }

  function Inbox(s: State, c: Client): seq<Message> {
    if c in s.inbox then s.inbox[c] else []
  }

  function Post(s: State, c: Client, m: Message): State {
    s.(inbox := s.inbox[c := Inbox(s, c) + [m]])
  }

  function AppendTo(s: State, k: TaskKey, e: Entry): State {
    s.(pipe := s.pipe.AppendTo(k, e))
  }

  function SetPhase(s: State, j: nat, p: Phase): State
    requires j in s.jobs
  {
    s.(jobs := s.jobs[j := s.jobs[j].(phase := p)])
  }

  /** A delta that passed the checks on entry goes into the queue, or is refused when the queue is full. */
  function DoUpdate(s: State, author: Client, k: TaskKey, d: Delta): State {
    if s.run != Idle || k.id == "" || d.base64 == "" then s
    else if s.pipe.queue.Full() then
      if author in s.clients then Post(s, author, SyncFailed(k)) else s
    else
      var item := Item(|At(s.pipe.accepted, k)|, author, d);
      s.(pipe := s.pipe.Accept(k, item), run := Acking(k, item))
  }

  function DoSendAck(s: State, sent: bool): State {
    match s.run
    case Acking(k, item) =>
      var t := s.(run := FanningOut(k, item));
      if item.author !in s.clients then t
      else if sent then Post(t, item.author, Ack(k, item))
      else t.(clients := t.clients - {item.author})
    case _ => s
  }

  /** Every client but the author gets the delta, except those whose buffer is full: they are evicted next. */
  function DoFanOut(s: State, slow: set<Client>): State {
    match s.run
    case FanningOut(k, item) =>
      var to := s.clients - slow - {item.author};
      s.(inbox := map c | c in s.inbox.Keys + to :: if c in to then Inbox(s, c) + [Live(k, item)] else s.inbox[c],
         run := Evicting(s.clients * slow - {item.author}))
    case _ => s
  }

  function DoEvictSlow(s: State): State {
    match s.run
    case Evicting(slow) => s.(clients := s.clients - slow, run := Idle)
    case _ => s
  }

  function DoRegister(s: State, c: Client, displaced: set<Client>, k: TaskKey, j: nat): State {
    if s.run != Idle || c in s.joined || j in s.jobs then s
    else s.(clients := s.clients - displaced + {c}, joined := s.joined[c := s.pipe.accepted], jobs := s.jobs[j := Job(c, k, Started)])
  }

  function DoLeave(s: State, c: Client): State {
    s.(clients := s.clients - {c})
  }

  function DoStartInit(s: State, c: Client, k: TaskKey, j: nat): State {
    if c !in s.clients || j in s.jobs then s
    else s.(jobs := s.jobs[j := Job(c, k, Started)])
  }

  function DoReadPending(s: State, j: nat): State {
    if j !in s.jobs || s.jobs[j].phase != Started then s
    else
      var k := s.jobs[j].key;
      SetPhase(s, j, HasPending(|At(s.pipe.accepted, k)|, s.pipe.queue.Items(k)))
  }

  function DoReadStream(s: State, j: nat): State {
    if j !in s.jobs then s
    else
      var k := s.jobs[j].key;
      match s.jobs[j].phase
      case HasPending(at, queued) =>
        if queued == [] && Visible(s, k) == [] then SetPhase(s, j, Reseeding(at, queued, Trimmed(s, k)))
        else SetPhase(s, j, Loaded(at, queued, Trimmed(s, k), Visible(s, k)))
      case _ => s
  }

  /** The second XRANGE, after the seeding attempt. If it fails or shows nothing, the first, empty one stands. */
  function DoReadAgain(s: State, j: nat, ok: bool): State {
    if j !in s.jobs then s
    else
      var k := s.jobs[j].key;
      match s.jobs[j].phase
      case Reseeding(at, queued, from) =>
        if ok && Visible(s, k) != [] then SetPhase(s, j, Loaded(at, queued, Trimmed(s, k), Visible(s, k)))
        else SetPhase(s, j, Loaded(at, queued, from, []))
      case _ => s
  }

  function DoReadFails(s: State, j: nat): State {
    if j in s.jobs && s.jobs[j].phase.HasPending? then SetPhase(s, j, Failed) else s
  }

  function DataOf(entries: seq<Entry>): seq<Delta> {
    seq(|entries|, i requires 0 <= i < |entries| => entries[i].Data())
  }

  function DeltasOf(items: seq<Item>): seq<Delta> {
    seq(|items|, i requires 0 <= i < |items| => items[i].delta)
  }

  function DoSendInit(s: State, j: nat, sent: bool): State {
    if j !in s.jobs then s
    else
      var Job(c, k, phase) := s.jobs[j];
      match phase
      case Loaded(at, queued, from, entries) =>
        if sent then
          Post(SetPhase(s, j, Sent(at, queued, from, entries)), c, Init(k, DataOf(entries) + DeltasOf(queued)))
        else SetPhase(s, j, Failed).(clients := s.clients - {c})
      case _ => s
  }

  /** The seeding script writes the starter update only into a stream that holds nothing. */
  function DoSeed(s: State, k: TaskKey, d: Delta): State {
    if Visible(s, k) == [] then AppendTo(s, k, Other(d)) else s
  }

  function DoCompactAppend(s: State, k: TaskKey, d: Delta): State {
    AppendTo(s, k, Other(d)).(compactions := s.compactions + {(k, |At(s.pipe.log, k)|)})
  }

  /** XTRIM MINID with the id of the snapshot: everything before it goes, unless a later trim already took more. */
  function DoCompactTrim(s: State, k: TaskKey, at: nat): State {
    if (k, at) !in s.compactions then s
    else s.(trimmed := s.trimmed[k := if Trimmed(s, k) < at then at else Trimmed(s, k)],
            compactions := s.compactions - {(k, at)})
  }

  function Next(s: State, step: Step): State {
    match step
    case Update(author, k, d) => DoUpdate(s, author, k, d)
    case SendAck(sent) => DoSendAck(s, sent)
    case FanOut(slow) => DoFanOut(s, slow)
    case EvictSlow => DoEvictSlow(s)
    case Register(c, displaced, k, j) => DoRegister(s, c, displaced, k, j)
    case Leave(c) => DoLeave(s, c)
    case StartInit(c, k, j) => DoStartInit(s, c, k, j)
    case ReadPending(j) => DoReadPending(s, j)
    case ReadStream(j) => DoReadStream(s, j)
    case ReadFails(j) => DoReadFails(s, j)
    case ReadAgain(j, ok) => DoReadAgain(s, j, ok)
    case SendInit(j, sent) => DoSendInit(s, j, sent)
    case TakeBatch(k) => s.(pipe := s.pipe.TakeBatch(k, s.batchSize))
    case AppendOne(reply) => s.(pipe := s.pipe.AppendOne(reply))
    case Commit => s.(pipe := s.pipe.Commit())
    case OtherAppend(k, d) => AppendTo(s, k, Other(d))
    case Seed(k, d) => DoSeed(s, k, d)
    case CompactAppend(k, d) => DoCompactAppend(s, k, d)
    case CompactTrim(k, at) => DoCompactTrim(s, k, at)
  }

  /** A run: the steps in order, where a step that is not possible yet changes nothing. */
  function Exec(s: State, steps: seq<Step>): State {
    if steps == [] then s else Next(Exec(s, steps[..|steps| - 1]), steps[|steps| - 1])
  }

  /** A fresh room over streams that may already hold the history other replicas wrote. */
  function Fresh(maxSize: nat, batchSize: nat, history: map<TaskKey, seq<Delta>>): State {
    var log := map k | k in history :: seq(|history[k]|, i requires 0 <= i < |history[k]| => Other(history[k][i]));
    State(Pipe(Queue(map[], 0, maxSize), map[], log, Waiting), batchSize, map[], Idle, {}, map[], map[], map[], {})
  }

  // What each kind of step leaves alone.

  /** The steps of the flusher, of the other replicas and of the streams. */
  predicate IsPipeStep(step: Step) {
    step.TakeBatch? || step.AppendOne? || step.Commit? || step.OtherAppend? || step.Seed? || step.CompactAppend? || step.CompactTrim?
  }

  /** The steps in which the Run loop handles one accepted delta. */
  predicate IsRunStep(step: Step) {
    step.Update? || step.SendAck? || step.FanOut? || step.EvictSlow?
  }

  /** The steps in which clients come and go, and jobs begin. */
  predicate IsDoorStep(step: Step) {
    step.Register? || step.Leave? || step.StartInit?
  }

  /** The reads of a yjs.init. */
  predicate IsReadStep(step: Step) {
    step.ReadPending? || step.ReadStream? || step.ReadFails? || step.ReadAgain?
  }

  /** What a step does, by name, for proofs that leave Next hidden. */
  lemma StepIs(s: State, step: Step)
    ensures step.Update? ==> Next(s, step) == DoUpdate(s, step.author, step.key, step.data)
    ensures step.SendAck? ==> Next(s, step) == DoSendAck(s, step.sent)
    ensures step.FanOut? ==> Next(s, step) == DoFanOut(s, step.slow)
    ensures step.EvictSlow? ==> Next(s, step) == DoEvictSlow(s)
    ensures step.Register? ==> Next(s, step) == DoRegister(s, step.client, step.displaced, step.key, step.job)
    ensures step.Leave? ==> Next(s, step) == DoLeave(s, step.client)
    ensures step.StartInit? ==> Next(s, step) == DoStartInit(s, step.client, step.key, step.job)
    ensures step.ReadPending? ==> Next(s, step) == DoReadPending(s, step.job)
    ensures step.ReadStream? ==> Next(s, step) == DoReadStream(s, step.job)
    ensures step.ReadFails? ==> Next(s, step) == DoReadFails(s, step.job)
    ensures step.ReadAgain? ==> Next(s, step) == DoReadAgain(s, step.job, step.ok)
    ensures step.SendInit? ==> Next(s, step) == DoSendInit(s, step.job, step.sent)
    ensures step.TakeBatch? ==> Next(s, step) == s.(pipe := s.pipe.TakeBatch(step.key, s.batchSize))
    ensures step.AppendOne? ==> Next(s, step) == s.(pipe := s.pipe.AppendOne(step.reply))
    ensures step.Commit? ==> Next(s, step) == s.(pipe := s.pipe.Commit())
    ensures step.OtherAppend? ==> Next(s, step) == AppendTo(s, step.key, Other(step.data))
    ensures step.Seed? ==> Next(s, step) == DoSeed(s, step.key, step.data)
    ensures step.CompactAppend? ==> Next(s, step) == DoCompactAppend(s, step.key, step.snapshot)
    ensures step.CompactTrim? ==> Next(s, step) == DoCompactTrim(s, step.key, step.at)
  {
    hide DoUpdate, DoSendAck, DoFanOut, DoEvictSlow, DoRegister, DoLeave, DoStartInit, DoReadPending, DoReadStream,
         DoReadAgain, DoReadFails, DoSendInit, DoSeed, DoCompactAppend, DoCompactTrim, Pipe.TakeBatch, Pipe.AppendOne, Pipe.Commit;
  }

  lemma PipeStepFrame(s: State, step: Step)
    requires IsPipeStep(step)
    ensures var t := Next(s, step);
            && t == s.(pipe := t.pipe, trimmed := t.trimmed, compactions := t.compactions)
            && t.pipe.accepted == s.pipe.accepted
            && (step.CompactTrim? ==> t.pipe == s.pipe)
            && (!step.CompactTrim? ==> t.trimmed == s.trimmed)
  {
    hide Visible, Trimmed, Queue.CommitBatch, Queue.Batch, DoUpdate, DoSendAck, DoFanOut, DoEvictSlow, DoRegister, DoLeave,
         DoStartInit, DoReadPending, DoReadStream, DoReadAgain, DoReadFails, DoSendInit;
  }

  ghost predicate RunFrame(s: State, t: State) {
    && t == s.(pipe := t.pipe, run := t.run, clients := t.clients, inbox := t.inbox)
    && t.clients <= s.clients && t.pipe.log == s.pipe.log
  }

  lemma UpdateFrame(s: State, author: Client, k: TaskKey, d: Delta)
    ensures RunFrame(s, DoUpdate(s, author, k, d))
  {
    hide Queue.Enqueue, Inbox;
  }

  lemma PassOnFrame(s: State, sent: bool, slow: set<Client>)
    ensures RunFrame(s, DoSendAck(s, sent)) && DoSendAck(s, sent).pipe == s.pipe
    ensures RunFrame(s, DoFanOut(s, slow)) && DoFanOut(s, slow).pipe == s.pipe
    ensures RunFrame(s, DoEvictSlow(s)) && DoEvictSlow(s).pipe == s.pipe && DoEvictSlow(s).inbox == s.inbox
  {
    hide Inbox;
  }

  lemma RunStepFrame(s: State, step: Step)
    requires IsRunStep(step)
    ensures RunFrame(s, Next(s, step)) && (!step.Update? ==> Next(s, step).pipe == s.pipe)
    ensures step.EvictSlow? ==> Next(s, step).inbox == s.inbox
  {
    StepIs(s, step);
    hide Next, RunFrame;
    match step
    case Update(author, k, d) => UpdateFrame(s, author, k, d);
    case SendAck(sent) => PassOnFrame(s, sent, {});
    case FanOut(slow) => PassOnFrame(s, false, slow);
    case EvictSlow => PassOnFrame(s, false, {});
  }

  lemma DoorStepFrame(s: State, step: Step)
    requires IsDoorStep(step)
    ensures var t := Next(s, step);
            && t == s.(clients := t.clients, joined := t.joined, jobs := t.jobs)
            && (!step.Register? ==> t.joined == s.joined && t.clients <= s.clients)
            && (step.Register? ==>
                  || t == s
                  || (&& step.client !in s.joined && t.joined == s.joined[step.client := s.pipe.accepted]
                      && t.clients <= s.clients + {step.client}))
  {
    hide DoUpdate, DoSendAck, DoFanOut, DoEvictSlow, DoReadPending, DoReadStream, DoReadAgain, DoReadFails, DoSendInit,
         DoSeed, DoCompactAppend, DoCompactTrim, Pipe.TakeBatch, Pipe.AppendOne, Pipe.Commit;
  }

  lemma ReadStepFrame(s: State, step: Step)
    requires IsReadStep(step)
    ensures var t := Next(s, step); t == s.(jobs := t.jobs)
  {
    StepIs(s, step);
    hide Next, Visible, Trimmed;
  }

  lemma SendInitFrame(s: State, j: nat, sent: bool)
    ensures var t := Next(s, SendInit(j, sent));
            t == s.(clients := t.clients, inbox := t.inbox, jobs := t.jobs) && t.clients <= s.clients
  {
    StepIs(s, SendInit(j, sent));
    hide Next, Inbox, DataOf, DeltasOf;
  }

  /** Every step, by its kind. */
  lemma StepFrame(s: State, step: Step)
    ensures var t := Next(s, step);
            && (!IsRunStep(step) ==> t.run == s.run)
            && (!step.Update? && !step.SendAck? && !step.FanOut? && !step.SendInit? ==> t.inbox == s.inbox)
            && (!step.Update? ==> t.pipe.accepted == s.pipe.accepted)
            && (!step.Update? && (IsPipeStep(step) ==> step.CompactTrim?) ==> t.pipe == s.pipe)
            && (!IsPipeStep(step) ==> t.pipe.log == s.pipe.log && t.compactions == s.compactions)
            && (!step.CompactTrim? ==> t.trimmed == s.trimmed)
            && (!step.Register? ==> t.joined == s.joined && t.clients <= s.clients)
            && (step.Register? ==>
                  || t == s
                  || (&& step.client !in s.joined && t.joined == s.joined[step.client := s.pipe.accepted]
                      && t.clients <= s.clients + {step.client}))
            && (IsPipeStep(step) || IsRunStep(step) ==> t.jobs == s.jobs)
  {
    if IsPipeStep(step) {
      PipeStepFrame(s, step);
    } else if IsRunStep(step) {
      RunStepFrame(s, step);
    } else if IsDoorStep(step) {
      DoorStepFrame(s, step);
    } else if IsReadStep(step) {
      ReadStepFrame(s, step);
    } else {
      SendInitFrame(s, step.job, step.sent);
    }
    hide Next, DoSendInit;
  }
}
