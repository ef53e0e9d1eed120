/**
 Saving code snapshots: the Run loop hands versions to a save worker through a bounded queue and, when that is full,
 through one slot that keeps the newest. Their steps interleave freely, and saves fail in any way.
 */
module CodeSave {
  import opened Basics
  import opened CodeStore

  const QUEUE_SIZE := 128

  /** The worker waits in its select, has a snapshot to save, or is about to look into the slot. */
  datatype Worker = Selecting | Saving(version: int) | Draining

  /** The Run loop has found the queue full, or has set the slot and not signalled yet. */
  datatype Writer = Ready | Coalescing(version: int) | Signalling

  datatype Move =
    | Offer(version: int)
    | SetSlot
    | Signal
    | TakeQueued
    | TakeSignal
    | RetryFires
    | TakeSlot
    | Save(reply: Reply)

  datatype Pipeline = Pipeline(
    queue: seq<int>,
    slot: Option<int>,
    signal: bool,
    retry: bool,
    lastSaved: int,
    worker: Worker,
    writer: Writer)
  {
    function Offer(version: int): Pipeline {
      if writer != Ready then this
      else if |queue| < QUEUE_SIZE then this.(queue := queue + [version])
      else this.(writer := Coalescing(version))
    }

    /** The slot keeps the newer of what it has and what it gets. */
    function Keep(version: int): Pipeline {
      if slot == None || version > slot.value then this.(slot := Some(version)) else this
    }

    function SetSlot(): Pipeline {
      if writer.Coalescing? then Keep(writer.version).(writer := Signalling) else this
    }

    function Signal(): Pipeline {
      if writer == Signalling then this.(signal := true, writer := Ready) else this
    }

    function TakeQueued(): Pipeline {
      if worker != Selecting || queue == [] then this else this.(queue := queue[1..], worker := Saving(queue[0]))
    }

    function TakeSignal(): Pipeline {
      if worker != Selecting || !signal then this else this.(signal := false, worker := Draining)
    }

    function RetryFires(): Pipeline {
      if worker != Selecting || !retry then this else this.(retry := false, worker := Draining)
    }

    function TakeSlot(): Pipeline {
      if worker != Draining then this
      else if slot.Some? && slot.value > lastSaved then this.(slot := None, worker := Saving(slot.value))
      else this.(slot := None, worker := Selecting)
    }

    /** A version that is not newer than the last saved one is skipped without a call. */
    predicate Calls() {
      worker.Saving? && worker.version > lastSaved
    }

    function Save(acked: bool): Pipeline {
      if !worker.Saving? then this
      else if !Calls() then this.(worker := Draining)
      else if acked then this.(lastSaved := worker.version, retry := false, worker := Draining)
      else Keep(worker.version).(retry := true, worker := Selecting)
    }

    function Next(move: Move): Pipeline {
      match move
      case Offer(v) => Offer(v)
      case SetSlot => SetSlot()
      case Signal => Signal()
      case TakeQueued => TakeQueued()
      case TakeSignal => TakeSignal()
      case RetryFires => RetryFires()
      case TakeSlot => TakeSlot()
      case Save(reply) => Save(reply == Acked)
    }

    /** Where a version can be: saved, queued, in the slot, in the worker's hand, or in the Run loop's. */
    predicate Has(version: int) {
      version == lastSaved || Carries(version)
    }

    predicate Carries(version: int) {
      || version in queue
      || slot == Some(version)
      || worker == Saving(version)
      || writer == Coalescing(version)
    }

    predicate Idle() {
      queue == [] && slot == None && worker == Selecting && writer == Ready
    }
  }

  function Idling(initial: int): Pipeline {
    Pipeline([], None, false, false, initial, Selecting, Ready)
  }

  function Run(p: Pipeline, moves: seq<Move>): Pipeline {
    if moves == [] then p else Run(p, moves[..|moves| - 1]).Next(moves[|moves| - 1])
  }

  /** A snapshot is submitted when the Run loop is free to take it. */
  predicate Submits(p: Pipeline, move: Move) {
    move.Offer? && p.writer == Ready
  }

  function Submitted(p: Pipeline, moves: seq<Move>): seq<int> {
    if moves == [] then []
    else
      var before, move := moves[..|moves| - 1], moves[|moves| - 1];
      Submitted(p, before) + if Submits(Run(p, before), move) then [move.version] else []
  }

  function Newest(initial: int, versions: seq<int>): int {
    if versions == [] then initial
    else
      var m := Newest(initial, versions[..|versions| - 1]);
      if versions[|versions| - 1] > m then versions[|versions| - 1] else m
  }

  lemma NewestNext(initial: int, versions: seq<int>, v: int)
    ensures Newest(initial, versions + [v]) == if v > Newest(initial, versions) then v else Newest(initial, versions)
  {
    assert (versions + [v])[..|versions|] == versions;
  }

  /** Newest is the maximum. */
  lemma {:induction false} NewestIsMax(initial: int, versions: seq<int>)
    ensures Newest(initial, versions) == initial || Newest(initial, versions) in versions
    ensures initial <= Newest(initial, versions)
    ensures forall v :: v in versions ==> v <= Newest(initial, versions)
    decreases |versions|
  {
    if versions != [] {
      var before := versions[..|versions| - 1];
      NewestIsMax(initial, before);
      assert versions == before + [versions[|versions| - 1]];
    }
  }

  /** top is the newest of all the pipeline has. */
  ghost predicate IsTop(p: Pipeline, top: int) {
    p.Has(top) && forall v :: p.Has(v) ==> v <= top
  }

  lemma TopKept(p: Pipeline, move: Move, top: int)
    requires IsTop(p, top)
    ensures IsTop(p.Next(move), if Submits(p, move) && move.version > top then move.version else top)
  {
    var t := p.Next(move);
    var top' := if Submits(p, move) && move.version > top then move.version else top;
    assert p.Has(p.lastSaved) && (p.worker.Saving? ==> p.Has(p.worker.version)) && (p.slot.Some? ==> p.Has(p.slot.value));
    assert p.writer.Coalescing? ==> p.Has(p.writer.version);
    if move.TakeQueued? && p.worker == Selecting && p.queue != [] {
      assert forall v :: v in p.queue <==> v == p.queue[0] || v in p.queue[1..];
    }
    assert t.Has(top');
    forall v | t.Has(v) ensures v <= top' {
      assert p.Has(v) || (Submits(p, move) && v == move.version);
    }
  }

  /**
   The newest snapshot is never lost: in every run the highest of the initial version and all versions submitted is
   also the highest of those saved, queued, in the slot and in either hand.
   */
  lemma {:induction false} NewestNeverLost(initial: int, moves: seq<Move>)
    ensures IsTop(Run(Idling(initial), moves), Newest(initial, Submitted(Idling(initial), moves)))
    decreases |moves|
  {
    if moves != [] {
      var before, move := moves[..|moves| - 1], moves[|moves| - 1];
      NewestNeverLost(initial, before);
      var p := Run(Idling(initial), before);
      var versions := Submitted(Idling(initial), before);
      if Submits(p, move) {
        NewestNext(initial, versions, move.version);
      }
      hide IsTop, Pipeline.Next, Newest;
      TopKept(p, move, Newest(initial, versions));
      assert versions + [] == versions;
    }
  }

  /** Something will take the worker out of its select to look into the slot. */
  predicate WakeUp(p: Pipeline) {
    p.signal || p.retry || p.writer == Signalling
  }

  ghost predicate Awake(p: Pipeline) {
    p.worker == Selecting && p.slot.Some? ==> WakeUp(p)
  }

  lemma AwakeKept(p: Pipeline, move: Move)
    requires Awake(p)
    ensures Awake(p.Next(move))
  {
  }

  /**
   No lost wake-up: whenever the worker waits in its select while the slot holds anything, the signal is buffered,
   the retry timer is armed, or the Run loop is about to signal.
   */
  lemma {:induction false} NoLostWakeUp(initial: int, moves: seq<Move>)
    ensures Awake(Run(Idling(initial), moves))
    decreases |moves|
  {
    if moves != [] {
      NoLostWakeUp(initial, moves[..|moves| - 1]);
      hide Awake, Pipeline.Next;
      AwakeKept(Run(Idling(initial), moves[..|moves| - 1]), moves[|moves| - 1]);
    }
  }

  /** The queue is within its size, and the retry timer is armed only for a version that is newer than the last saved. */
  ghost predicate Bounded(p: Pipeline) {
    && |p.queue| <= QUEUE_SIZE
    && (p.retry ==> (p.slot.Some? && p.slot.value > p.lastSaved) || (p.worker.Saving? && p.worker.version > p.lastSaved))
  }

  lemma BoundedKept(p: Pipeline, move: Move)
    requires Bounded(p)
    ensures Bounded(p.Next(move))
  {
  }

  /** In every run the queue never outgrows its channel, and a retry always has something to do. */
  lemma {:induction false} RetryHasWork(initial: int, moves: seq<Move>)
    ensures Bounded(Run(Idling(initial), moves))
    decreases |moves|
  {
    if moves != [] {
      RetryHasWork(initial, moves[..|moves| - 1]);
      hide Bounded, Pipeline.Next;
      BoundedKept(Run(Idling(initial), moves[..|moves| - 1]), moves[|moves| - 1]);
    }
  }

  /** A room begins with nothing to do and nothing that will wake its worker. */
  lemma BeginsQuiet(initial: int)
    ensures Idling(initial).Idle() && !WakeUp(Idling(initial)) && Idling(initial).lastSaved == initial
  {
  }

  /** A snapshot goes to the back of the queue as long as there is room, and only then to the slot. */
  lemma OfferQueuesFirst(p: Pipeline, version: int)
    requires p.writer == Ready
    ensures var t := p.Offer(version);
            if |p.queue| < QUEUE_SIZE then t == p.(queue := p.queue + [version])
            else t.SetSlot().Signal().signal && t.SetSlot().slot.Some? && t.SetSlot().slot.value >= version && t.queue == p.queue
  {
  }

  /** The worker takes from the queue what has waited longest, and one at a time. */
  lemma TakesOldest(p: Pipeline)
    requires p.worker == Selecting && p.queue != []
    ensures var t := p.TakeQueued(); t.worker.Saving? && [t.worker.version] + t.queue == p.queue
  {
  }

  /** A failed call puts its version back, arms the retry and waits; it never tries again by itself. */
  lemma FailedSaveWaits(p: Pipeline)
    requires p.Calls()
    ensures var t := p.Save(false);
            && t.worker == Selecting && t.retry && t.lastSaved == p.lastSaved && t.queue == p.queue
            && t.slot.Some? && t.slot.value >= p.worker.version && (p.slot.Some? ==> t.slot.value >= p.slot.value)
            && t.slot.value in {p.worker.version, if p.slot.Some? then p.slot.value else p.worker.version}
  {
  }

  /** What the slot hands over is newer than the last saved version, and the slot is empty after every look. */
  lemma SlotHandsOverNewer(p: Pipeline)
    requires p.worker == Draining
    ensures var t := p.TakeSlot();
            && t.slot == None
            && (t.worker == Selecting || (p.slot.Some? && t.worker == Saving(p.slot.value)))
            && (t.worker == Selecting <==> p.slot == None || p.slot.value <= p.lastSaved)
  {
  }

  /** What is left to do, counted so that each move of the worker and the Run loop makes it less. */
  function Work(p: Pipeline): nat {
    4 * |p.queue|
    + (if p.slot.Some? then 4 else 0) + (if p.signal then 4 else 0) + (if p.retry then 4 else 0)
    + (match p.worker case Selecting => 0 case Draining => 1 case Saving(_) => 2)
    + (match p.writer case Ready => 0 case Signalling => 5 case Coalescing(_) => 10)
  }

  lemma WorkShrinks(p: Pipeline, move: Move)
    requires !move.Offer? && (move.Save? ==> move.reply == Acked)
    ensures p.Next(move) != p ==> Work(p.Next(move)) < Work(p)
  {
  }

  /**
   With Redis answering and nothing new submitted, the moves that are possible come to an end, whatever their order,
   and the state they end in has saved the newest version ever submitted.
   */
  lemma SettlesSaved(initial: int, moves: seq<Move>)
    ensures var p := Run(Idling(initial), moves);
            && (forall move: Move :: !move.Offer? && (move.Save? ==> move.reply == Acked) && p.Next(move) != p ==>
                  Work(p.Next(move)) < Work(p))
            && ((forall move: Move :: !move.Offer? ==> p.Next(move) == p) ==>
                  p.Idle() && p.lastSaved == Newest(initial, Submitted(Idling(initial), moves)))
  {
    var p := Run(Idling(initial), moves);
    NoLostWakeUp(initial, moves);
    NewestNeverLost(initial, moves);
    hide Run, Submitted, Newest, IsTop, Awake, Work, Pipeline.Idle;
    forall move: Move | !move.Offer? && (move.Save? ==> move.reply == Acked) && p.Next(move) != p
      ensures Work(p.Next(move)) < Work(p)
    {
      WorkShrinks(p, move);
    }
    if forall move: Move :: !move.Offer? ==> p.Next(move) == p {
      assert p.Next(SetSlot) == p && p.Next(Signal) == p && p.Next(TakeQueued) == p && p.Next(TakeSignal) == p;
      assert p.Next(RetryFires) == p && p.Next(TakeSlot) == p && p.Next(Save(Acked)) == p;
      StuckIsIdle(p);
      IdleIsSaved(p, Newest(initial, Submitted(Idling(initial), moves)));
    }
  }

  lemma IdleIsSaved(p: Pipeline, top: int)
    requires IsTop(p, top) && p.Idle()
    ensures p.lastSaved == top
  {
  }

  lemma StuckIsIdle(p: Pipeline)
    requires Awake(p)
    requires p.SetSlot() == p && p.Signal() == p && p.TakeQueued() == p && p.TakeSignal() == p
    requires p.RetryFires() == p && p.TakeSlot() == p && p.Save(true) == p
    ensures p.Idle()
  {
    assert p.worker == Selecting && p.writer == Ready;
    assert p.queue != [] ==> |p.TakeQueued().queue| == |p.queue| - 1;
  }

  // Several replicas, one Redis.

  datatype Step =
    | Start(r: nat, restored: bool)
    | Does(r: nat, move: Move)

  datatype State = State(keys: Keys, replicas: map<nat, Pipeline>)

  function Next(s: State, step: Step): State {
    match step
    case Start(r, restored) =>
      if r in s.replicas then s
      else s.(replicas := s.replicas[r := Idling(if restored && s.keys.code.Some? then s.keys.code.value else 0)])
    case Does(r, move) =>
      if r !in s.replicas then s
      else
        var p := s.replicas[r];
        State(if move.Save? && move.reply != Refused && p.Calls() then s.keys.Save(p.worker.version) else s.keys,
              s.replicas[r := p.Next(move)])
  }

  /** A replica starts from the snapshot it restores, or from nothing; a save call writes unless it is refused. */
  lemma StepsOnRedis(s: State, r: nat, restored: bool, reply: Reply)
    ensures r !in s.replicas ==>
              Next(s, Start(r, restored)).replicas[r] == Idling(if restored && s.keys.code.Some? then s.keys.code.value else 0)
    ensures r in s.replicas && s.replicas[r].Calls() ==>
              Next(s, Does(r, Save(reply))).keys == if reply == Refused then s.keys else s.keys.Save(s.replicas[r].worker.version)
    ensures r in s.replicas && !s.replicas[r].Calls() ==> Next(s, Does(r, Save(reply))).keys == s.keys
  {
  }

  function Exec(s: State, steps: seq<Step>): State {
    if steps == [] then s else Next(Exec(s, steps[..|steps| - 1]), steps[|steps| - 1])
  }

  /** Every version submitted on some replica so far. */
  function AllSubmitted(keys: Keys, steps: seq<Step>): set<int> {
    if steps == [] then {}
    else
      var before, step := steps[..|steps| - 1], steps[|steps| - 1];
      var s := Exec(State(keys, map[]), before);
      AllSubmitted(keys, before) + Adds(s, step)
  }

  function Adds(s: State, step: Step): set<int> {
    if step.Does? && step.r in s.replicas && Submits(s.replicas[step.r], step.move) then {step.move.version} else {}
  }

  ghost predicate Dominates(p: Pipeline, v: int) {
    exists w :: p.Has(w) && v <= w
  }

  lemma StillDominates(p: Pipeline, move: Move, v: int)
    requires Dominates(p, v)
    ensures Dominates(p.Next(move), v)
  {
    var t := p.Next(move);
    var w :| p.Has(w) && v <= w;
    assert t.Has(t.lastSaved) && (t.slot.Some? ==> t.Has(t.slot.value));
    if move.TakeQueued? && p.worker == Selecting && p.queue != [] {
      assert w in p.queue ==> w == p.queue[0] || w in p.queue[1..];
    }
    assert t.Has(w) || w <= t.lastSaved || (t.slot.Some? && w <= t.slot.value);
  }

  ghost predicate ReplicaSaves(p: Pipeline, saved: int, submitted: set<int>) {
    && 0 <= p.lastSaved <= saved
    && forall v :: p.Carries(v) ==> v in submitted
  }

  ghost predicate Kept(s: State, v: int) {
    v <= s.keys.saved || exists r :: r in s.replicas && Dominates(s.replicas[r], v)
  }

  /** Redis has whatever some replica counts as saved, and it is the first snapshot or was submitted. */
  ghost predicate SaveInv(keys0: Keys, s: State, submitted: set<int>) {
    && s.keys.Agree() && Unsigned(s.keys.code)
    && (s.keys.code == keys0.code || (s.keys.code.Some? && s.keys.code.value in submitted))
    && keys0.saved <= s.keys.saved && (keys0.code.Some? ==> s.keys.code.Some?)
    && (forall r :: r in s.replicas ==> ReplicaSaves(s.replicas[r], s.keys.saved, submitted))
    && (forall v :: v in submitted ==> Kept(s, v))
  }

  lemma SavesOk(p: Pipeline, move: Move, saved: int, saved': int, submitted: set<int>)
    requires ReplicaSaves(p, saved, submitted) && saved <= saved'
    requires move.Save? && move.reply != Refused && p.Calls() ==> p.worker.version <= saved'
    ensures ReplicaSaves(p.Next(move), saved', submitted + if Submits(p, move) then {move.version} else {})
  {
    var t := p.Next(move);
    if move.TakeQueued? && p.worker == Selecting && p.queue != [] {
      assert forall v :: v in p.queue <==> v == p.queue[0] || v in p.queue[1..];
    }
    forall v | t.Carries(v) ensures v in submitted + if Submits(p, move) then {move.version} else {} {
      assert p.Carries(v) || (Submits(p, move) && v == move.version);
    }
  }

  lemma SubmitDominates(p: Pipeline, move: Move)
    requires Submits(p, move)
    ensures Dominates(p.Next(move), move.version)
  {
    assert p.Next(move).Has(move.version);
  }

  lemma StillKept(s: State, step: Step, v: int)
    requires Kept(s, v) && s.keys.saved <= Next(s, step).keys.saved
    ensures Kept(Next(s, step), v)
  {
    if v > s.keys.saved {
      var r :| r in s.replicas && Dominates(s.replicas[r], v);
      hide Dominates, Pipeline.Next;
      if step.Does? && step.r == r {
        StillDominates(s.replicas[r], step.move, v);
      }
      assert r in Next(s, step).replicas && Dominates(Next(s, step).replicas[r], v);
    }
  }

  lemma KeysAfter(keys0: Keys, s: State, step: Step, submitted: set<int>)
    requires SaveInv(keys0, s, submitted)
    ensures var t := Next(s, step);
            && t.keys.Agree() && Unsigned(t.keys.code) && s.keys.saved <= t.keys.saved
            && (s.keys.code.Some? ==> t.keys.code.Some?)
            && (t.keys.code == keys0.code || (t.keys.code.Some? && t.keys.code.value in submitted))
    ensures step.Does? && step.r in s.replicas && step.move.Save? && step.move.reply != Refused && s.replicas[step.r].Calls() ==>
              s.replicas[step.r].worker.version <= Next(s, step).keys.saved
  {
    if step.Does? && step.r in s.replicas && s.replicas[step.r].Calls() {
      var p := s.replicas[step.r];
      assert ReplicaSaves(p, s.keys.saved, submitted);
      assert p.Carries(p.worker.version);
      SaveKeepsNewest(s.keys, p.worker.version);
    }
  }

  lemma SaveKeeps(keys0: Keys, s: State, step: Step, submitted: set<int>)
    requires SaveInv(keys0, s, submitted)
    ensures SaveInv(keys0, Next(s, step), submitted + Adds(s, step))
  {
    var t := Next(s, step);
    KeysAfter(keys0, s, step, submitted);
    hide Keys.Agree, Pipeline.Next, Kept, Pipeline.Calls, Submits;
    forall r | r in t.replicas ensures ReplicaSaves(t.replicas[r], t.keys.saved, submitted + Adds(s, step)) {
      if step.Does? && step.r == r {
        SavesOk(s.replicas[r], step.move, s.keys.saved, t.keys.saved, submitted);
      } else if step.Start? && r !in s.replicas {
        RestoredSaves(s, step.restored, submitted);
      } else {
        assert ReplicaSaves(s.replicas[r], s.keys.saved, submitted);
      }
    }
    forall v | v in submitted + Adds(s, step) ensures Kept(t, v) {
      if v in submitted {
        StillKept(s, step, v);
      } else {
        NewIsKept(s, step);
      }
    }
  }

  lemma RestoredSaves(s: State, restored: bool, submitted: set<int>)
    requires s.keys.Agree() && Unsigned(s.keys.code)
    ensures ReplicaSaves(Idling(if restored && s.keys.code.Some? then s.keys.code.value else 0), s.keys.saved, submitted)
  {
  }

  lemma NewIsKept(s: State, step: Step)
    requires step.Does? && step.r in s.replicas && Submits(s.replicas[step.r], step.move)
    ensures Kept(Next(s, step), step.move.version)
  {
    SubmitDominates(s.replicas[step.r], step.move);
    hide Dominates, Pipeline.Next;
    assert step.r in Next(s, step).replicas;
  }

  lemma {:induction false} SaveHolds(keys: Keys, steps: seq<Step>)
    requires keys.Agree() && Unsigned(keys.code)
    ensures SaveInv(keys, Exec(State(keys, map[]), steps), AllSubmitted(keys, steps))
    decreases |steps|
  {
    if steps != [] {
      hide SaveInv, Next;
      SaveHolds(keys, steps[..|steps| - 1]);
      SaveKeeps(keys, Exec(State(keys, map[]), steps[..|steps| - 1]), steps[|steps| - 1], AllSubmitted(keys, steps[..|steps| - 1]));
    }
  }

  ghost predicate AllIdle(s: State) {
    forall r :: r in s.replicas ==> s.replicas[r].Idle()
  }

  /**
   The snapshot is the one Redis started from or was submitted, and neither that one nor any positive version submitted
   is above it.
   */
  ghost predicate HoldsNewest(keys0: Keys, s: State, submitted: set<int>) {
    && (s.keys.code == keys0.code || (s.keys.code.Some? && s.keys.code.value in submitted))
    && (keys0.code.Some? ==> s.keys.code.Some? && keys0.code.value <= s.keys.code.value)
    && forall v :: v in submitted && v > 0 ==> s.keys.code.Some? && v <= s.keys.code.value
  }

  lemma IdleHoldsNewest(keys: Keys, steps: seq<Step>)
    requires keys.Agree() && Unsigned(keys.code)
    requires AllIdle(Exec(State(keys, map[]), steps))
    ensures HoldsNewest(keys, Exec(State(keys, map[]), steps), AllSubmitted(keys, steps))
  {
    SaveHolds(keys, steps);
    var s := Exec(State(keys, map[]), steps);
    forall v | v in AllSubmitted(keys, steps) && v > 0 ensures s.keys.code.Some? && v <= s.keys.code.value {
      assert Kept(s, v);
      if exists r :: r in s.replicas && Dominates(s.replicas[r], v) {
        var r :| r in s.replicas && Dominates(s.replicas[r], v);
        assert ReplicaSaves(s.replicas[r], s.keys.saved, AllSubmitted(keys, steps));
      }
    }
  }

  lemma StepOn(keys: Keys, run: seq<Step>, s: State, step: Step) returns (run': seq<Step>, s': State)
    requires s == Exec(State(keys, map[]), run)
    ensures run' == run + [step] && s' == Next(s, step) && s' == Exec(State(keys, map[]), run')
    ensures AllSubmitted(keys, run') == AllSubmitted(keys, run) + Adds(s, step)
  {
    run', s' := run + [step], Next(s, step);
    assert run'[..|run|] == run;
  }

  /** An idle replica gets a version it will save, and saves it. */
  lemma SaveOne(keys: Keys, run: seq<Step>, s: State, r: nat, v: int) returns (run': seq<Step>, s': State)
    requires s == Exec(State(keys, map[]), run)
    requires r in s.replicas && s.replicas[r] == Idling(s.replicas[r].lastSaved) && v > s.replicas[r].lastSaved
    ensures s' == Exec(State(keys, map[]), run')
    ensures s' == State(s.keys.Save(v), s.replicas[r := Idling(v)])
    ensures AllSubmitted(keys, run') == AllSubmitted(keys, run) + {v}
  {
    var p := s.replicas[r];
    run', s' := StepOn(keys, run, s, Does(r, Offer(v)));
    run', s' := StepOn(keys, run', s', Does(r, TakeQueued));
    run', s' := StepOn(keys, run', s', Does(r, Save(Acked)));
    run', s' := StepOn(keys, run', s', Does(r, TakeSlot));
    assert s.replicas[r := p.Offer(v)][r := p.Offer(v).TakeQueued()] == s.replicas[r := p.Offer(v).TakeQueued()];
  }

  /** From a snapshot with a negative version a replica may overwrite a newer one with an unversioned one. */
  lemma NegativeSnapshotLosesNewest(keys: Keys) returns (steps: seq<Step>)
    requires keys.Agree() && !Unsigned(keys.code)
    ensures AllIdle(Exec(State(keys, map[]), steps))
    ensures !HoldsNewest(keys, Exec(State(keys, map[]), steps), AllSubmitted(keys, steps))
  {
    var s;
    steps, s := StepOn(keys, [], State(keys, map[]), Start(0, true));
    steps, s := StepOn(keys, steps, s, Start(1, false));
    hide Exec, AllSubmitted, Next;
    steps, s := SaveOne(keys, steps, s, 1, 5);
    steps, s := SaveOne(keys, steps, s, 0, 0);
    assert s.keys.code == Some(0);
  }

  /**
   When every replica is idle with nothing left to save, Redis holds the highest of the version it started from and
   those submitted on any of them, in every run, exactly when the snapshot the runs start from has no negative version.
   */
  lemma RedisHoldsNewest(keys: Keys)
    requires keys.Agree()
    ensures Unsigned(keys.code) <==>
            forall steps :: AllIdle(Exec(State(keys, map[]), steps)) ==>
              HoldsNewest(keys, Exec(State(keys, map[]), steps), AllSubmitted(keys, steps))
  {
    if Unsigned(keys.code) {
      forall steps | AllIdle(Exec(State(keys, map[]), steps))
        ensures HoldsNewest(keys, Exec(State(keys, map[]), steps), AllSubmitted(keys, steps))
      {
        IdleHoldsNewest(keys, steps);
      }
    } else {
      var steps := NegativeSnapshotLosesNewest(keys);
    }
  }

  /** The save call for one snapshot, when it is made at all. */
  function Written(k: Keys, p: Pipeline, reply: Reply): Keys {
    if reply != Refused && p.Calls() then k.Save(p.worker.version) else k
  }

  /** One look into the slot and, if it had something newer, the save and the look after it. */
  function Drain(p: Pipeline, reply: Reply): Pipeline {
    var taken := p.TakeSlot();
    if !taken.worker.Saving? then taken
    else
      var saved := taken.Save(reply == Acked);
      if saved.worker == Draining then saved.TakeSlot() else saved
  }

  class CodeSaver {
    var queue: seq<int>
    var slot: Option<int>
    var signal: bool
    var retry: bool
    var lastSaved: int
    const store: RedisStore

    constructor (store: RedisStore, initial: int)
      ensures View(Selecting) == Idling(initial) && this.store == store
    {
      this.store := store;
      queue, slot, signal, retry, lastSaved := [], None, false, false, initial;
    }

    function View(worker: Worker): Pipeline
      reads this
    {
      Pipeline(queue, slot, signal, retry, lastSaved, worker, Ready)
    }

    /** The Run loop's side, with the worker between two of its steps. */
    method Submit(version: int, ghost worker: Worker)
      modifies this`queue, this`slot, this`signal
      ensures View(worker) == old(View(worker)).Offer(version).SetSlot().Signal()
      ensures View(worker).Has(version) || (slot.Some? && slot.value > version)
    {
      if |queue| < QUEUE_SIZE {
        queue := queue + [version];
      } else {
        if slot == None || version > slot.value {
          slot := Some(version);
        }
        signal := true;
      }
    }

    method SavePayload(version: int, reply: Reply) returns (ok: bool)
      modifies this`slot, this`retry, this`lastSaved, store
      ensures View(if ok then Draining else Selecting) == old(View(Saving(version))).Save(reply == Acked)
      ensures store.View() == Written(old(store.View()), old(View(Saving(version))), reply)
      ensures reply == Refused || version <= old(lastSaved) ==> store.View() == old(store.View())
      ensures reply != Refused && version > old(lastSaved) && version > 0 ==> store.saved >= version
      ensures ok <==> lastSaved >= version
      ensures !ok ==> slot.Some? && slot.value >= version && retry
    {
      if version <= lastSaved {
        return true;
      }
      if reply != Refused {
        var written := store.SaveCodeState(version);
      }
      if reply != Acked {
        if slot == None || version > slot.value {
          slot := Some(version);
        }
        retry := true;
        return false;
      }
      lastSaved := version;
      retry := false;
      ok := true;
    }

    /** It never spins: a failed save leaves the loop with the snapshot back in the slot and the retry timer armed. */
    method DrainPending(reply: Reply)
      modifies this`slot, this`retry, this`lastSaved, store
      ensures View(Selecting) == Drain(old(View(Draining)), reply)
      ensures slot.Some? ==> reply != Acked && retry && slot == old(slot)
      ensures slot == None && old(slot).Some? ==> lastSaved >= old(slot).value
    {
      var newer := true;
      while newer
        invariant newer ==>
                    || View(Draining) == old(View(Draining))
                    || (&& old(View(Draining)).TakeSlot().worker.Saving? && reply == Acked && slot == None
                        && View(Draining) == old(View(Draining)).TakeSlot().Save(true))
        invariant !newer ==> View(Selecting) == Drain(old(View(Draining)), reply)
        decreases newer, slot.Some?
      {
        var pending := slot;
        slot := None;
        if pending == None || pending.value <= lastSaved {
          newer := false;
        } else {
          newer := SavePayload(pending.value, reply);
        }
      }
    }
  }
}
