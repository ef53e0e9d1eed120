/** Push notifications between the broker and Telegram as atomic steps, with retries, lost connections and crashes. */
module PushDelivery {
  import opened Basics

  const RETRY_DELAYS_MS: seq<nat> := [1000, 2000, 4000, 8000, 16000]
  const MAX_DELIVERIES: nat := 6

  /** A notification is named by its messageId, or by a name of its own when it was published without one. */
  datatype Key = MessageId(id: nat) | Anonymous(serial: nat)

  /** One message in the broker. tried lists the retry header of this copy, last, and of the copies it came from. */
  datatype Copy = Copy(key: Key, tried: seq<nat>) {
    function Retries(): nat {
      if tried == [] then 0 else tried[|tried| - 1]
    }
  }

  datatype Place =
    | Main
    | Retry(tier: nat)
    | RateLimit
    | Dlq
    | Unacked

  datatype Item = Item(copy: Copy, place: Place)

  /** What became of one attempt to render and send. wait is the retry_after of a 429 in milliseconds, or 0. */
  datatype Outcome =
    | Delivered
    | Invalid
    | Permanent
    | Retryable(wait: nat)

  datatype Phase = Sending | Publishing(to: Place, next: Copy)

  /** A running handle(). It is stale once the channel its message came on is gone: what it settles has no effect. */
  datatype Handler = Handler(tag: nat, copy: Copy, stale: bool, phase: Phase)

  datatype State = State(
    items: map<nat, Item>,
    handlers: map<nat, Handler>,
    inFlight: set<Key>,
    seen: set<Key>,
    sent: set<Key>,
    published: set<Key>)

  datatype Step =
    | Publish(tag: nat, key: Key, retries: nat)
    | Deliver(tag: nat, handler: nat, settled: bool)
    | Attempt(handler: nat, outcome: Outcome, settled: bool)
    | Republish(handler: nat, reply: Reply, tag: nat, settled: bool)
    | Expire(tag: nat)
    | Forget(key: Key)
    | Drop
    | Crash

  predicate Rejects(s: State, c: Copy) {
    c.key.MessageId? && (c.key in s.seen || c.key in s.inFlight)
  }

  /** Where a message that was not delivered goes, and what is published there. */
  function NextHop(c: Copy, outcome: Outcome): (Place, Copy) {
    var next := c.Retries() + 1;
    if !outcome.Retryable? || next >= MAX_DELIVERIES then (Dlq, c)
    else
      (if outcome.wait > RETRY_DELAYS_MS[next - 1] then RateLimit else Retry(next - 1),
       c.(tried := c.tried + [next]))
  }

  function DoPublish(s: State, tag: nat, key: Key, retries: nat): State {
    if tag in s.items || (key.Anonymous? && key in s.published) then s
    else s.(items := s.items[tag := Item(Copy(key, [retries]), Main)], published := s.published + {key})
  }

  function Remove(s: State, tag: nat): State {
    s.(items := s.items - {tag})
  }

  /** A message already delivered, or being delivered, is acknowledged; the others start a handler. */
  function DoDeliver(s: State, tag: nat, handler: nat, settled: bool): State {
    if tag !in s.items || s.items[tag].place != Main || handler in s.handlers then s
    else
      var c := s.items[tag].copy;
      var t := s.(items := s.items[tag := Item(c, Unacked)]);
      if Rejects(s, c) then
        if settled then Remove(t, tag) else t
      else
        t.(handlers := s.handlers[handler := Handler(tag, c, false, Sending)],
           inFlight := if c.key.MessageId? then s.inFlight + {c.key} else s.inFlight)
  }

  function Finish(s: State, h: nat): State
    requires h in s.handlers
  {
    s.(handlers := s.handlers - {h}, inFlight := s.inFlight - {s.handlers[h].copy.key})
  }

  function DoAttempt(s: State, h: nat, outcome: Outcome, settled: bool): State {
    if h !in s.handlers || s.handlers[h].phase != Sending then s
    else
      var x := s.handlers[h];
      if outcome == Delivered then
        var t := Finish(s, h).(sent := s.sent + {x.copy.key},
                               seen := if x.copy.key.MessageId? then s.seen + {x.copy.key} else s.seen);
        if settled && !x.stale then Remove(t, x.tag) else t
      else
        var (to, next) := NextHop(x.copy, outcome);
        s.(handlers := s.handlers[h := x.(phase := Publishing(to, next))])
  }

  /** The copy is published first; then the original is acknowledged, or put back if publishing was refused. */
  function DoRepublish(s: State, h: nat, reply: Reply, tag: nat, settled: bool): State {
    if h !in s.handlers || s.handlers[h].phase == Sending || tag in s.items then s
    else
      var x := s.handlers[h];
      var t := Finish(s, h);
      var u := if reply == Refused then t else t.(items := t.items[tag := Item(x.phase.next, x.phase.to)]);
      if !settled || x.stale then u
      else if reply == Acked then Remove(u, x.tag)
      else u.(items := u.items[x.tag := Item(x.copy, Main)])
  }

  /** A message in a retry queue dies back into the main queue. */
  function DoExpire(s: State, tag: nat): State {
    if tag in s.items && (s.items[tag].place.Retry? || s.items[tag].place == RateLimit) then
      s.(items := s.items[tag := s.items[tag].(place := Main)])
    else s
  }

  /** Everything delivered and not acknowledged comes back. */
  function Requeued(items: map<nat, Item>): map<nat, Item> {
    map t | t in items :: if items[t].place == Unacked then items[t].(place := Main) else items[t]
  }

  function DoDrop(s: State): State {
    s.(items := Requeued(s.items), handlers := map h | h in s.handlers :: s.handlers[h].(stale := true))
  }

  function DoCrash(s: State): State {
    s.(items := Requeued(s.items), handlers := map[], inFlight := {}, seen := {})
  }

  function Next(s: State, step: Step): State {
    match step
    case Publish(tag, key, retries) => DoPublish(s, tag, key, retries)
    case Deliver(tag, h, settled) => DoDeliver(s, tag, h, settled)
    case Attempt(h, outcome, settled) => DoAttempt(s, h, outcome, settled)
    case Republish(h, reply, tag, settled) => DoRepublish(s, h, reply, tag, settled)
    case Expire(tag) => DoExpire(s, tag)
    case Forget(key) => s.(seen := s.seen - {key})
    case Drop => DoDrop(s)
    case Crash => DoCrash(s)
  }

  function Exec(s: State, steps: seq<Step>): State {
    if steps == [] then s else Next(Exec(s, steps[..|steps| - 1]), steps[|steps| - 1])
  }

  const INIT := State(map[], map[], {}, {}, {}, {})

  // Never lost.

  ghost predicate HasItem(s: State, key: Key) {
    exists t :: t in s.items && s.items[t].copy.key == key
  }

  ghost predicate Safe(s: State, key: Key) {
    key in s.sent || HasItem(s, key)
  }

  predicate IsLive(s: State, h: nat) {
    h in s.handlers && !s.handlers[h].stale
  }

  /** A live handler's message is still unacknowledged in the broker, and no two handlers share one. */
  ghost predicate LiveOk(s: State) {
    && (forall h :: IsLive(s, h) ==>
          s.handlers[h].tag in s.items && s.items[s.handlers[h].tag] == Item(s.handlers[h].copy, Unacked))
    && (forall h, g :: IsLive(s, h) && IsLive(s, g) && s.handlers[h].tag == s.handlers[g].tag ==> h == g)
    && (forall h :: h in s.handlers && s.handlers[h].phase.Publishing? ==> s.handlers[h].phase.next.key == s.handlers[h].copy.key)
  }

  /** Whatever is in the broker or in hand was published. */
  ghost predicate KnownOk(s: State) {
    && (forall t :: t in s.items ==> s.items[t].copy.key in s.published)
    && (forall h :: h in s.handlers ==> s.handlers[h].copy.key in s.published)
  }

  predicate Carries(s: State, h: nat, k: Key) {
    h in s.handlers && s.handlers[h].copy.key == k
  }

  /** What is in flight is exactly what some handler carries, one for each messageId. */
  ghost predicate Exclusive(s: State) {
    && (forall k :: k in s.inFlight ==> k.MessageId? && exists h :: Carries(s, h, k))
    && (forall h, k :: Carries(s, h, k) && k.MessageId? ==> k in s.inFlight)
    && (forall h, g, k :: Carries(s, h, k) && Carries(s, g, k) && k.MessageId? ==> h == g)
  }

  ghost predicate PushInv(s: State) {
    LiveOk(s) && s.seen <= s.sent && KnownOk(s) && Exclusive(s)
  }

  ghost predicate NothingLost(s: State) {
    forall k :: k in s.published ==> Safe(s, k)
  }

  ghost predicate LiveHandler(s: State, key: Key) {
    exists h :: IsLive(s, h) && s.handlers[h].copy.key == key
  }

  /**
   A message is acknowledged because its id is taken for delivered or in flight, although that id was never sent, and
   it is the only message in the broker that carries it.
   */
  ghost predicate Risky(s: State, step: Step) {
    && step.Deliver? && step.settled && step.handler !in s.handlers
    && step.tag in s.items && s.items[step.tag].place == Main
    && Rejects(s, s.items[step.tag].copy)
    && s.items[step.tag].copy.key !in s.sent
    && forall t :: t in s.items && s.items[t].copy.key == s.items[step.tag].copy.key ==> t == step.tag
  }

  lemma StaysSafe(s: State, step: Step, k: Key)
    requires PushInv(s) && Safe(s, k) && !Risky(s, step)
    ensures Safe(Next(s, step), k)
  {
    SetsGrow(s, step);
    if k !in s.sent {
      var tag :| tag in s.items && s.items[tag].copy.key == k;
      hide KnownOk, Exclusive;
      if step.Deliver? {
        DeliverKeepsItem(s, step, tag);
      } else {
        hide Risky;
        MovesKeepItem(s, step, tag);
      }
      hide Next;
    }
  }

  lemma DeliverKeepsItem(s: State, step: Step, tag: nat)
    requires step.Deliver? && !Risky(s, step) && tag in s.items && s.items[tag].copy.key !in s.sent
    ensures HasItem(Next(s, step), s.items[tag].copy.key)
  {
    var t, k := Next(s, step), s.items[tag].copy.key;
    if tag !in t.items {
      var other :| other in s.items && s.items[other].copy.key == k && other != tag;
      assert other in t.items && t.items[other].copy.key == k;
    } else {
      assert t.items[tag].copy.key == k;
    }
  }

  lemma MovesKeepItem(s: State, step: Step, tag: nat)
    requires !step.Deliver? && LiveOk(s) && tag in s.items
    ensures var k := s.items[tag].copy.key; k in Next(s, step).sent || HasItem(Next(s, step), k)
  {
    var t, k := Next(s, step), s.items[tag].copy.key;
    hide NextHop;
    if step.Republish? && tag !in t.items {
      assert step.tag in t.items && t.items[step.tag].copy.key == k;
    } else if k !in t.sent {
      assert tag in t.items && t.items[tag].copy.key == k;
    }
  }

  /** A risky step loses a notification there and then. */
  lemma RiskyLoses(s: State, step: Step)
    requires PushInv(s) && Risky(s, step)
    ensures !NothingLost(Next(s, step))
  {
    var t, k := Next(s, step), s.items[step.tag].copy.key;
    assert k in t.published && !Safe(t, k);
  }

  lemma LiveDelivers(s: State, tag: nat, handler: nat, settled: bool)
    requires LiveOk(s)
    ensures LiveOk(DoDeliver(s, tag, handler, settled))
  {
  }

  lemma LiveAttempts(s: State, step: Step)
    requires LiveOk(s) && step.Attempt?
    ensures LiveOk(Next(s, step))
  {
    NextHopKey(s, step);
    hide NextHop;
  }

  lemma LiveRepublishes(s: State, h: nat, reply: Reply, tag: nat, settled: bool)
    requires LiveOk(s)
    ensures LiveOk(DoRepublish(s, h, reply, tag, settled))
  {
  }

  lemma LiveKeeps(s: State, step: Step)
    requires LiveOk(s)
    ensures LiveOk(Next(s, step))
  {
    if step.Deliver? {
      LiveDelivers(s, step.tag, step.handler, step.settled);
      hide LiveOk;
    } else if step.Attempt? {
      LiveAttempts(s, step);
      hide LiveOk;
    } else if step.Republish? {
      LiveRepublishes(s, step.handler, step.reply, step.tag, step.settled);
      hide LiveOk;
    } else {
      hide NextHop, DoAttempt, DoRepublish, DoDeliver;
    }
  }

  lemma NextHopKey(s: State, step: Step)
    ensures step.Attempt? && step.handler in s.handlers ==>
              NextHop(s.handlers[step.handler].copy, step.outcome).1.key == s.handlers[step.handler].copy.key
  {
  }

  lemma KnownKeeps(s: State, step: Step)
    requires LiveOk(s) && KnownOk(s)
    ensures KnownOk(Next(s, step))
  {
    NextHopKey(s, step);
    hide NextHop;
  }

  lemma SameHandlers(s: State, t: State)
    requires Exclusive(s) && t.inFlight == s.inFlight && t.handlers.Keys == s.handlers.Keys
    requires forall h :: h in s.handlers ==> t.handlers[h].copy == s.handlers[h].copy
    ensures Exclusive(t)
  {
    assert forall h, k :: Carries(t, h, k) <==> Carries(s, h, k);
    forall k | k in t.inFlight ensures exists h :: Carries(t, h, k) {
      var h :| Carries(s, h, k);
      assert Carries(t, h, k);
    }
  }

  lemma StartsOne(s: State, t: State, h: nat, x: Handler)
    requires Exclusive(s) && h !in s.handlers && t.handlers == s.handlers[h := x]
    requires t.inFlight == if x.copy.key.MessageId? then s.inFlight + {x.copy.key} else s.inFlight
    requires x.copy.key !in s.inFlight
    ensures Exclusive(t)
  {
    assert forall g, k :: Carries(t, g, k) <==> Carries(s, g, k) || (g == h && k == x.copy.key);
    forall k | k in t.inFlight ensures exists g :: Carries(t, g, k) {
      if k in s.inFlight {
        var g :| Carries(s, g, k);
        assert Carries(t, g, k);
      } else {
        assert Carries(t, h, k);
      }
    }
  }

  lemma EndsOne(s: State, t: State, h: nat)
    requires Exclusive(s) && h in s.handlers
    requires t.handlers == Finish(s, h).handlers && t.inFlight == Finish(s, h).inFlight
    ensures Exclusive(t)
  {
    assert forall g, k :: Carries(t, g, k) <==> Carries(s, g, k) && g != h;
    assert Carries(s, h, s.handlers[h].copy.key);
    forall k | k in t.inFlight ensures exists g :: Carries(t, g, k) {
      var g :| Carries(s, g, k);
      assert Carries(t, g, k);
    }
  }

  lemma AnonymousIsNotInFlight(s: State, k: Key)
    requires Exclusive(s) && k.Anonymous?
    ensures k !in s.inFlight
  {
  }

  lemma DeliverExclusive(s: State, tag: nat, h: nat, settled: bool)
    requires Exclusive(s)
    ensures Exclusive(DoDeliver(s, tag, h, settled))
  {
    var t := DoDeliver(s, tag, h, settled);
    if t.handlers != s.handlers {
      if t.handlers[h].copy.key.Anonymous? {
        AnonymousIsNotInFlight(s, t.handlers[h].copy.key);
      }
      hide Exclusive;
      StartsOne(s, t, h, t.handlers[h]);
    } else {
      hide Exclusive;
      SameHandlers(s, t);
    }
  }

  lemma ExclusiveKeeps(s: State, step: Step)
    requires Exclusive(s)
    ensures Exclusive(Next(s, step))
  {
    var t := Next(s, step);
    if step.Deliver? {
      DeliverExclusive(s, step.tag, step.handler, step.settled);
      hide Exclusive;
    } else if (step.Attempt? || step.Republish?) && step.handler in s.handlers && step.handler !in t.handlers {
      hide Exclusive, NextHop, DoDeliver;
      EndsOne(s, t, step.handler);
    } else if !step.Crash? {
      hide Exclusive, NextHop, DoDeliver, DoCrash;
      SameHandlers(s, t);
    }
  }

  lemma PushKeeps(s: State, step: Step)
    requires PushInv(s)
    ensures PushInv(Next(s, step))
  {
    LiveKeeps(s, step);
    KnownKeeps(s, step);
    ExclusiveKeeps(s, step);
    SetsGrow(s, step);
    hide Next, LiveOk, KnownOk, Exclusive;
  }

  /** One step loses something exactly when it is risky. */
  lemma LosesIffRisky(s: State, step: Step)
    requires PushInv(s) && NothingLost(s)
    ensures NothingLost(Next(s, step)) <==> !Risky(s, step)
  {
    var t := Next(s, step);
    if Risky(s, step) {
      RiskyLoses(s, step);
    } else {
      SetsGrow(s, step);
      forall k | k in t.published ensures Safe(t, k) {
        if k in s.published {
          hide Next, LiveOk, KnownOk, Exclusive, Risky;
          StaysSafe(s, step, k);
        } else {
          assert t.items[step.tag].copy.key == k;
        }
      }
    }
  }

  lemma SetsGrow(s: State, step: Step)
    requires s.seen <= s.sent
    ensures Next(s, step).seen <= Next(s, step).sent && s.sent <= Next(s, step).sent
    ensures Next(s, step).published == s.published + if step.Publish? && Next(s, step) != s then {step.key} else {}
  {
    hide NextHop, Requeued;
  }

  lemma {:induction false} PushHolds(steps: seq<Step>)
    ensures PushInv(Exec(INIT, steps))
    decreases |steps|
  {
    if steps != [] {
      hide PushInv, Next;
      PushHolds(steps[..|steps| - 1]);
      PushKeeps(Exec(INIT, steps[..|steps| - 1]), steps[|steps| - 1]);
    }
  }

  ghost predicate NoRisk(steps: seq<Step>) {
    forall i :: 0 <= i < |steps| ==> !Risky(Exec(INIT, steps[..i]), steps[i])
  }

  /**
   A push is never lost, in runs with crashes, lost connections, lost settlements, redeliveries and failed publishes,
   exactly when no step is risky: at every moment each published notification is in a queue, unacknowledged in hand or
   in the dead letter queue, or was sent.
   */
  lemma NeverLost(steps: seq<Step>)
    ensures NoRisk(steps) <==> forall n :: 0 <= n <= |steps| ==> NothingLost(Exec(INIT, steps[..n]))
  {
    if NoRisk(steps) {
      forall n | 0 <= n <= |steps| ensures NothingLost(Exec(INIT, steps[..n])) {
        RisklessKeepsAll(steps, n);
      }
    } else {
      var i :| 0 <= i < |steps| && Risky(Exec(INIT, steps[..i]), steps[i]);
      PushHolds(steps[..i]);
      RiskyLoses(Exec(INIT, steps[..i]), steps[i]);
      assert steps[..i + 1][..i] == steps[..i];
    }
  }

  lemma {:induction false} RisklessKeepsAll(steps: seq<Step>, n: nat)
    requires NoRisk(steps) && n <= |steps|
    ensures NothingLost(Exec(INIT, steps[..n]))
    decreases n
  {
    if n > 0 {
      hide NothingLost, Next, Risky, PushInv;
      RisklessKeepsAll(steps, n - 1);
      PushHolds(steps[..n - 1]);
      LosesIffRisky(Exec(INIT, steps[..n - 1]), steps[n - 1]);
      assert steps[..n][..n - 1] == steps[..n - 1];
    }
  }

  /** Behind a risky step is a handler that outlived its connection: it carries the id, and no live handler does. */
  lemma RiskyIsStale(s: State, step: Step)
    requires PushInv(s) && Risky(s, step)
    ensures var k := s.items[step.tag].copy.key;
            && k in s.inFlight && k !in s.seen
            && (exists h :: Carries(s, h, k) && s.handlers[h].stale)
            && (forall h :: Carries(s, h, k) ==> s.handlers[h].stale)
  {
    var k := s.items[step.tag].copy.key;
    var h :| Carries(s, h, k);
    assert !IsLive(s, h);
  }

  ghost predicate NoneStale(s: State) {
    forall h :: h in s.handlers ==> !s.handlers[h].stale
  }

  lemma {:induction false} WithoutDrops(steps: seq<Step>)
    requires Drop !in steps
    ensures NoneStale(Exec(INIT, steps))
    decreases |steps|
  {
    if steps != [] {
      WithoutDrops(steps[..|steps| - 1]);
      hide NextHop, Exec;
    }
  }

  /** Crashes alone never lose a push: only losing the connection while the process lives on can make handlers stale. */
  lemma NeverLostWithoutDrops(steps: seq<Step>)
    requires Drop !in steps
    ensures NoRisk(steps) && NothingLost(Exec(INIT, steps))
  {
    forall i | 0 <= i < |steps| ensures !Risky(Exec(INIT, steps[..i]), steps[i]) {
      WithoutDrops(steps[..i]);
      PushHolds(steps[..i]);
      NotRisky(Exec(INIT, steps[..i]), steps[i]);
    }
    NeverLost(steps);
    assert steps[..|steps|] == steps;
  }

  lemma NotRisky(s: State, step: Step)
    requires PushInv(s) && NoneStale(s)
    ensures !Risky(s, step)
  {
    if Risky(s, step) {
      RiskyIsStale(s, step);
    }
  }

  // What moves messages, and what does not.

  /** A publication enters the main queue, whatever its id; only a message without one must be new. */
  lemma PublishIsTaken(s: State, tag: nat, key: Key, retries: nat)
    requires tag !in s.items
    ensures var t := Next(s, Publish(tag, key, retries));
            if key.Anonymous? && key in s.published then t == s
            else && key in t.published && tag in t.items && t.items[tag] == Item(Copy(key, [retries]), Main)
                 && forall x :: x in s.items ==> x in t.items && t.items[x] == s.items[x]
  {
  }

  /** A message leaves the broker only by a settlement that reaches it, of its own delivery or of a duplicate. */
  lemma LeavesOnlySettled(s: State, step: Step, tag: nat)
    requires tag in s.items && tag !in Next(s, step).items
    ensures || (step.Deliver? && step.settled && step.tag == tag && Rejects(s, s.items[tag].copy))
            || (&& ((step.Attempt? && step.outcome == Delivered && step.settled)
                    || (step.Republish? && step.reply == Acked && step.settled))
                && IsLive(s, step.handler) && s.handlers[step.handler].tag == tag)
  {
    hide NextHop;
  }

  /** Losing the connection or the process brings back what was in hand, and moves nothing else. */
  lemma ComesBack(s: State, step: Step, tag: nat)
    requires (step == Drop || step == Crash) && tag in s.items
    ensures var t := Next(s, step);
            && t.items.Keys == s.items.Keys
            && t.items[tag].copy == s.items[tag].copy
            && t.items[tag].place == if s.items[tag].place == Unacked then Main else s.items[tag].place
  {
  }

  /** A crash forgets what was delivered and what was in flight: nothing is turned away after it. */
  lemma CrashForgets(s: State, c: Copy)
    ensures !Rejects(Next(s, Crash), c) && Next(s, Crash).handlers == map[]
  {
  }

  /** What is forgotten and not in flight is taken again. */
  lemma ForgottenIsTaken(s: State, c: Copy)
    ensures Rejects(Next(s, Forget(c.key)), c) <==> c.key.MessageId? && c.key in s.inFlight
  {
  }

  /** No message is ever stuck: unless it is in the dead letter queue, whatever state the consumer is in it can be sent. */
  lemma CanStillBeSent(s: State, tag: nat)
    requires tag in s.items && s.items[tag].place != Dlq
    ensures s.items[tag].copy.key in Exec(s, [Crash, Expire(tag), Deliver(tag, 0, true), Attempt(0, Delivered, true)]).sent
  {
    var a := Next(s, Crash);
    ComesBack(s, Crash, tag);
    CrashForgets(s, s.items[tag].copy);
    var b := Next(a, Expire(tag));
    assert b.items[tag] == Item(s.items[tag].copy, Main) && !Rejects(b, b.items[tag].copy);
    var c := Next(b, Deliver(tag, 0, true));
    assert c.handlers[0] == Handler(tag, s.items[tag].copy, false, Sending);
    var d := Next(c, Attempt(0, Delivered, true));
    assert s.items[tag].copy.key in d.sent && Exec(s, []) == s;
    hide Next;
    var run, t := StepOn([], s, s, Crash);
    run, t := StepOn(run, t, s, Expire(tag));
    run, t := StepOn(run, t, s, Deliver(tag, 0, true));
    run, t := StepOn(run, t, s, Attempt(0, Delivered, true));
    assert run == [Crash, Expire(tag), Deliver(tag, 0, true), Attempt(0, Delivered, true)];
  }

  lemma StepOn(run: seq<Step>, s: State, s0: State, step: Step) returns (run': seq<Step>, s': State)
    requires s == Exec(s0, run)
    ensures run' == run + [step] && s' == Next(s, step) && s' == Exec(s0, run')
  {
    run', s' := run + [step], Next(s, step);
    assert run'[..|run|] == run;
  }

  const KEY := MessageId(7)
  const FIRST_COPY := Copy(KEY, [0])

  lemma DropStates() returns (s1: State, s2: State, s3: State)
    ensures s1 == Next(INIT, Publish(1, KEY, 0)) && s2 == Next(s1, Deliver(1, 1, true)) && s3 == Next(s2, Drop)
    ensures s3 == State(map[1 := Item(FIRST_COPY, Main)], map[1 := Handler(1, FIRST_COPY, true, Sending)], {KEY}, {}, {}, {KEY})
  {
    s1 := Next(INIT, Publish(1, KEY, 0));
    assert s1.items == map[1 := Item(FIRST_COPY, Main)];
    s2 := Next(s1, Deliver(1, 1, true));
    assert s2.items == map[1 := Item(FIRST_COPY, Unacked)];
    assert s2.handlers == map[1 := Handler(1, FIRST_COPY, false, Sending)];
    s3 := Next(s2, Drop);
    assert s3.items == map[1 := Item(FIRST_COPY, Main)];
  }

  lemma LossStates(s3: State) returns (s4: State, s5: State, s6: State)
    requires s3 == State(map[1 := Item(FIRST_COPY, Main)], map[1 := Handler(1, FIRST_COPY, true, Sending)], {KEY}, {}, {}, {KEY})
    ensures s4 == Next(s3, Deliver(1, 2, true)) && s5 == Next(s4, Attempt(1, Retryable(0), true))
    ensures s6 == Next(s5, Republish(1, Refused, 2, true))
    ensures s6 == State(map[], map[], {}, {}, {}, {KEY})
  {
    s4 := Next(s3, Deliver(1, 2, true));
    assert s4.items == map[] && s4.handlers == s3.handlers;
    s5 := Next(s4, Attempt(1, Retryable(0), true));
    assert s5.handlers[1].phase.Publishing?;
    s6 := Next(s5, Republish(1, Refused, 2, true));
    assert s6.handlers == map[];
  }

  /**
   It can happen: the connection drops during a slow send, the message comes back and is acknowledged as in flight,
   the send fails, and the retry copy is refused. The notification was never sent and is nowhere.
   */
  lemma DropLosesAPush() returns (steps: seq<Step>)
    ensures Crash !in steps
    ensures var s := Exec(INIT, steps); KEY in s.published && KEY !in s.sent && s.items == map[] && s.handlers == map[]
  {
    var s1, s2, s3 := DropStates();
    var s4, s5, s6 := LossStates(s3);
    hide Next;
    assert Exec(INIT, []) == INIT;
    var s;
    steps, s := StepOn([], INIT, INIT, Publish(1, KEY, 0));
    steps, s := StepOn(steps, s, INIT, Deliver(1, 1, true));
    steps, s := StepOn(steps, s, INIT, Drop);
    steps, s := StepOn(steps, s, INIT, Deliver(1, 2, true));
    steps, s := StepOn(steps, s, INIT, Attempt(1, Retryable(0), true));
    steps, s := StepOn(steps, s, INIT, Republish(1, Refused, 2, true));
  }

  // Retries.

  ghost predicate TriedOk(c: Copy) {
    && c.tried != []
    && (forall i, j :: 0 <= i < j < |c.tried| ==> c.tried[i] < c.tried[j])
    && (|c.tried| > 1 ==> c.Retries() < MAX_DELIVERIES)
  }

  /** A retry queue of a tier holds copies of that tier; every tier has a delay. */
  ghost predicate ItemOk(x: Item) {
    && TriedOk(x.copy)
    && (x.place.Retry? ==> x.place.tier < |RETRY_DELAYS_MS| && x.copy.Retries() == x.place.tier + 1)
    && (x.place == RateLimit ==> 1 <= x.copy.Retries() < MAX_DELIVERIES)
  }

  ghost predicate RetryInv(s: State) {
    && (forall t :: t in s.items ==> ItemOk(s.items[t]))
    && (forall h :: h in s.handlers ==> TriedOk(s.handlers[h].copy))
    && (forall h :: h in s.handlers && s.handlers[h].phase.Publishing? ==>
          ItemOk(Item(s.handlers[h].phase.next, s.handlers[h].phase.to)))
  }

  lemma NextHopOk(c: Copy, outcome: Outcome)
    requires TriedOk(c)
    ensures var (to, next) := NextHop(c, outcome); ItemOk(Item(next, to))
  {
  }

  lemma ItemMoves(x: Item, place: Place)
    requires ItemOk(x) && !place.Retry? && place != RateLimit
    ensures ItemOk(Item(x.copy, place))
  {
  }

  lemma PublishedOk(key: Key, retries: nat)
    ensures ItemOk(Item(Copy(key, [retries]), Main))
  {
  }

  /** Moving a message between the main queue and a consumer's hands is always all right. */
  lemma MovesOk()
    ensures forall x: Item :: ItemOk(x) ==> TriedOk(x.copy) && ItemOk(Item(x.copy, Main)) && ItemOk(Item(x.copy, Unacked))
    ensures forall c: Copy :: TriedOk(c) ==> ItemOk(Item(c, Main))
  {
    forall x: Item | ItemOk(x) ensures TriedOk(x.copy) && ItemOk(Item(x.copy, Main)) && ItemOk(Item(x.copy, Unacked)) {
      ItemMoves(x, Main);
      ItemMoves(x, Unacked);
    }
  }

  lemma RetryDelivers(s: State, tag: nat, h: nat, settled: bool)
    requires RetryInv(s)
    ensures RetryInv(DoDeliver(s, tag, h, settled))
  {
    MovesOk();
    hide TriedOk, ItemOk;
  }

  lemma RetryAttempts(s: State, h: nat, outcome: Outcome, settled: bool)
    requires RetryInv(s)
    ensures RetryInv(DoAttempt(s, h, outcome, settled))
  {
    if h in s.handlers {
      NextHopOk(s.handlers[h].copy, outcome);
    }
    hide NextHop, TriedOk, ItemOk;
  }

  lemma RetryRepublishes(s: State, h: nat, reply: Reply, tag: nat, settled: bool)
    requires RetryInv(s)
    ensures RetryInv(DoRepublish(s, h, reply, tag, settled))
  {
    MovesOk();
    hide TriedOk, ItemOk;
  }

  lemma RetryKeeps(s: State, step: Step)
    requires RetryInv(s)
    ensures RetryInv(Next(s, step))
  {
    match step
    case Deliver(tag, h, settled) => RetryDelivers(s, tag, h, settled); hide RetryInv;
    case Attempt(h, outcome, settled) => RetryAttempts(s, h, outcome, settled); hide RetryInv;
    case Republish(h, reply, tag, settled) => RetryRepublishes(s, h, reply, tag, settled); hide RetryInv;
    case Publish(tag, key, retries) => PublishedOk(key, retries); hide TriedOk, ItemOk, DoDeliver, DoAttempt, DoRepublish;
    case _ => MovesOk(); hide TriedOk, ItemOk, DoDeliver, DoAttempt, DoRepublish;
  }

  /** An increasing list of numbers below hi has at most hi of them. */
  lemma {:induction false} IncreasingBelow(tried: seq<nat>, hi: nat)
    requires forall i, j :: 0 <= i < j < |tried| ==> tried[i] < tried[j]
    requires tried != [] ==> tried[|tried| - 1] < hi
    ensures |tried| <= hi
    decreases |tried|
  {
    if |tried| > 1 {
      IncreasingBelow(tried[..|tried| - 1], hi - 1);
    }
  }

  /**
   In every run the retry header strictly grows from copy to copy, stays within the tiers, and so a message and the
   copies made of it, one from the other, are at most MAX_DELIVERIES.
   */
  lemma {:induction false} RetriesBounded(steps: seq<Step>)
    ensures RetryInv(Exec(INIT, steps))
    ensures forall t :: t in Exec(INIT, steps).items ==> |Exec(INIT, steps).items[t].copy.tried| <= MAX_DELIVERIES
    decreases |steps|
  {
    if steps != [] {
      hide RetryInv, Next;
      RetriesBounded(steps[..|steps| - 1]);
      RetryKeeps(Exec(INIT, steps[..|steps| - 1]), steps[|steps| - 1]);
    }
    var s := Exec(INIT, steps);
    hide Exec;
    assert RetryInv(s);
    LineageBounded(s);
  }

  lemma LineageBounded(s: State)
    requires RetryInv(s)
    ensures forall t :: t in s.items ==> |s.items[t].copy.tried| <= MAX_DELIVERIES
  {
    forall t | t in s.items ensures |s.items[t].copy.tried| <= MAX_DELIVERIES {
      assert ItemOk(s.items[t]);
      if |s.items[t].copy.tried| > 1 {
        IncreasingBelow(s.items[t].copy.tried, MAX_DELIVERIES);
      }
    }
  }

  function Max(a: nat, b: nat): nat {
    if a < b then b else a
  }

  /** How long a message waits in a retry queue: the tier's own time, or what the message was given on its way there. */
  function Delay(place: Place, wait: nat): nat {
    match place
    case Retry(tier) => if tier < |RETRY_DELAYS_MS| then RETRY_DELAYS_MS[tier] else 0
    case RateLimit => wait
    case _ => 0
  }

  /** A retry waits for the longer of its tier's delay and what Telegram asked for, and the header counts it. */
  lemma RetryWaitsLonger(c: Copy, wait: nat)
    requires c.Retries() + 1 < MAX_DELIVERIES
    ensures var (to, next) := NextHop(c, Retryable(wait));
            && (to.Retry? || to == RateLimit)
            && (to == RateLimit <==> wait > RETRY_DELAYS_MS[c.Retries()])
            && Delay(to, wait) == Max(wait, RETRY_DELAYS_MS[c.Retries()])
            && next == Copy(c.key, c.tried + [c.Retries() + 1])
  {
  }

  /** Nothing else is retried: it goes to the dead letter queue as it is. */
  lemma DeadLetterIff(c: Copy, outcome: Outcome)
    ensures NextHop(c, outcome).0 == Dlq <==> !outcome.Retryable? || c.Retries() + 1 >= MAX_DELIVERIES
    ensures NextHop(c, outcome).0 == Dlq ==> NextHop(c, outcome).1 == c
  {
  }

  /** One message handled from delivery to settlement with nothing in between. */
  function Handled(s: State, tag: nat, h: nat, outcome: Outcome, reply: Reply, newTag: nat): State {
    var started := DoDeliver(s, tag, h, true);
    var tried := DoAttempt(started, h, outcome, true);
    DoRepublish(tried, h, reply, newTag, true)
  }

  /** The same, case by case. */
  lemma HandledIs(s: State, tag: nat, outcome: Outcome, reply: Reply, newTag: nat)
    requires tag in s.items && s.items[tag].place == Main && newTag !in s.items && s.handlers == map[]
    ensures var c := s.items[tag].copy;
            var held := s.items[tag := Item(c, Unacked)];
            var t := Handled(s, tag, 0, outcome, reply, newTag);
            && (Rejects(s, c) ==> t == s.(items := held - {tag}))
            && (!Rejects(s, c) && outcome == Delivered ==>
                  t == s.(items := held - {tag}, sent := s.sent + {c.key},
                          seen := if c.key.MessageId? then s.seen + {c.key} else s.seen, inFlight := t.inFlight))
            && (!Rejects(s, c) && outcome != Delivered ==>
                  t == s.(items := Settled(held, tag, c, NextHop(c, outcome), reply, newTag), inFlight := t.inFlight))
            && (!Rejects(s, c) ==> t.inFlight == (if c.key.MessageId? then s.inFlight + {c.key} else s.inFlight) - {c.key})
  {
    hide NextHop;
    var c := s.items[tag].copy;
    if !Rejects(s, c) {
      var started := DoDeliver(s, tag, 0, true);
      assert started.handlers == map[0 := Handler(tag, c, false, Sending)];
      var tried := DoAttempt(started, 0, outcome, true);
      assert started.handlers - {0} == map[] && tried.handlers - {0} == map[];
    }
  }

  lemma NextHopKeeps(c: Copy, outcome: Outcome)
    ensures NextHop(c, outcome).1.key == c.key && NextHop(c, outcome).0 !in {Main, Unacked}
  {
  }

  class PushConsumer {
    var items: map<nat, Item>
    var inFlight: set<Key>
    var seen: set<Key>
    var sent: set<Key>
    ghost var published: set<Key>

    constructor ()
      ensures View() == INIT
    {
      items, inFlight, seen, sent, published := map[], {}, {}, {}, {};
    }

    ghost function View(): State
      reads this
    {
      State(items, map[], inFlight, seen, sent, published)
    }

    /**
     Handling a message nobody else is handling loses nothing: afterwards its notification was sent, or a copy is in a
     retry queue or the dead letter queue, or the message itself is back in the main queue.
     */
    method Handle(tag: nat, outcome: Outcome, reply: Reply, newTag: nat)
      requires tag in items && items[tag].place == Main && newTag !in items
      modifies this`items, this`inFlight, this`seen, this`sent
      ensures View() == Handled(old(View()), tag, 0, outcome, reply, newTag)
      ensures var k := old(items[tag].copy.key);
              || k in sent || k in old(seen) || k in old(inFlight)
              || (tag in items && items[tag] == old(items[tag]))
              || (newTag in items && items[newTag].copy.key == k && items[newTag].place !in {Main, Unacked})
    {
      var message := items[tag].copy;
      HandledIs(View(), tag, outcome, reply, newTag);
      hide Handled, NextHop;
      items := items[tag := Item(message, Unacked)];
      if message.key.MessageId? && (message.key in seen || message.key in inFlight) {
        Ack(tag);
        return;
      }
      if message.key.MessageId? {
        inFlight := inFlight + {message.key};
      }
      if outcome == Delivered {
        sent := sent + {message.key};
        Ack(tag);
        if message.key.MessageId? {
          seen := seen + {message.key};
        }
      } else {
        NextHopKeeps(message, outcome);
        var nextRetry := message.Retries() + 1;
        if !outcome.Retryable? || nextRetry >= MAX_DELIVERIES {
          DeadLetter(tag, message, outcome, reply, newTag);
        } else {
          RetryMessage(tag, message, nextRetry, outcome.wait, reply, newTag);
        }
      }
      inFlight := inFlight - {message.key};
    }

    method RetryMessage(tag: nat, message: Copy, nextRetry: nat, wait: nat, reply: Reply, newTag: nat)
      requires 0 < nextRetry < MAX_DELIVERIES && nextRetry == message.Retries() + 1
      modifies this`items
      ensures items == Settled(old(items), tag, message, NextHop(message, Retryable(wait)), reply, newTag)
      ensures reply != Refused && newTag != tag ==>
                && newTag in items && items[newTag].copy == message.(tried := message.tried + [nextRetry])
                && Delay(items[newTag].place, wait) == Max(wait, RETRY_DELAYS_MS[nextRetry - 1])
    {
      var tierDelayMs := RETRY_DELAYS_MS[nextRetry - 1];
      var retryQueue := if wait > tierDelayMs then RateLimit else Retry(nextRetry - 1);
      SendThenSettle(tag, message, retryQueue, message.(tried := message.tried + [nextRetry]), reply, newTag);
    }

    method DeadLetter(tag: nat, message: Copy, outcome: Outcome, reply: Reply, newTag: nat)
      requires !outcome.Retryable? || message.Retries() + 1 >= MAX_DELIVERIES
      modifies this`items
      ensures items == Settled(old(items), tag, message, NextHop(message, outcome), reply, newTag)
    {
      SendThenSettle(tag, message, Dlq, message, reply, newTag);
    }

    method SendThenSettle(tag: nat, message: Copy, to: Place, next: Copy, reply: Reply, newTag: nat)
      modifies this`items
      ensures items == Settled(old(items), tag, message, (to, next), reply, newTag)
    {
      if reply != Refused {
        items := items[newTag := Item(next, to)];
      }
      if reply == Acked {
        Ack(tag);
      } else {
        items := items[tag := Item(message, Main)];
      }
    }

    method Ack(tag: nat)
      modifies this`items
      ensures items == old(items) - {tag}
    {
      items := items - {tag};
    }
  }

  /** The queues after publishing a copy and settling the original. */
  function Settled(items: map<nat, Item>, tag: nat, message: Copy, hop: (Place, Copy), reply: Reply, newTag: nat): map<nat, Item> {
    var published := if reply == Refused then items else items[newTag := Item(hop.1, hop.0)];
    if reply == Acked then published - {tag} else published[tag := Item(message, Main)]
  }
}
