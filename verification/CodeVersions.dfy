/**
 Version numbers of a session's code across replicas: each replica takes a number from Redis, stamps it on a local
 update, and orders what arrives from the others, with calls to Redis that fail in any way at any time.
 */
module CodeVersions {
  import opened Basics
  import opened CodeStore

  const MAX_ATTEMPTS := 3

  /** The allocation worker between two updates, between two attempts, or with the number it will stamp (0 for none). */
  datatype Hand = Free | Trying(failed: nat) | Holding(version: int)

  /** A room on one replica. outbox holds the stamped updates on their way to the Run loop. */
  datatype Replica = Replica(codeVersion: int, last: Option<int>, hand: Hand, outbox: seq<int>, lastSaved: int) {

    function Stamp(global: int): Replica {
      this.(codeVersion := if global <= codeVersion then codeVersion + 1 else global)
    }

    predicate Accepts(version: int) {
      && !(last.Some? && version <= last.value)
      && !(version <= codeVersion && codeVersion > 0)
    }

    function Accept(version: int): Replica {
      this.(codeVersion := if version > codeVersion then version else codeVersion, last := Some(version))
    }
  }

  function Restored(code: Option<int>): Replica {
    var v := if code.Some? then code.value else 0;
    Replica(v, code, Free, [], v)
  }

  /** One attempt to take a number: a lost reply costs the number, and the third failure ends with none. */
  function TryOnce(k: Keys, hand: Hand, reply: Reply): (Keys, Hand) {
    var failed := if hand.Trying? then hand.failed else 0;
    (if reply == Refused then k else k.Issue(),
     if reply == Acked then Holding(k.Issue().counter)
     else if failed + 1 < MAX_ATTEMPTS then Trying(failed + 1) else Holding(0))
  }

  /** issued tells a number that came from Redis from one the replica counted up by itself. */
  datatype Event =
    | Stamped(on: nat, version: int, issued: bool)
    | Accepted(on: nat, version: int)

  datatype State = State(keys: Keys, replicas: map<nat, Replica>, events: seq<Event>)

  datatype Step =
    | Start(r: nat, restored: bool)
    | Attempt(r: nat, reply: Reply)
    | NoStore(r: nat)
    | Stamp(r: nat)
    | HandleOwn(r: nat)
    | Deliver(r: nat, version: int)
    | Save(r: nat, version: int, reply: Reply)
    | ExpireCounter
    | ExpireSaved
    | ExpireCode

  function Put(s: State, r: nat, x: Replica): State {
    s.(replicas := s.replicas[r := x])
  }

  function DoStart(s: State, r: nat, restored: bool): State {
    if r in s.replicas then s else Put(s, r, Restored(if restored then s.keys.code else None))
  }

  function DoAttempt(s: State, r: nat, reply: Reply): State {
    if r !in s.replicas || s.replicas[r].hand.Holding? then s
    else
      var (keys, hand) := TryOnce(s.keys, s.replicas[r].hand, reply);
      Put(s, r, s.replicas[r].(hand := hand)).(keys := keys)
  }

  function DoNoStore(s: State, r: nat): State {
    if r in s.replicas && s.replicas[r].hand == Free then Put(s, r, s.replicas[r].(hand := Holding(0))) else s
  }

  function DoStamp(s: State, r: nat): State {
    if r !in s.replicas || !s.replicas[r].hand.Holding? then s
    else
      var x, g := s.replicas[r], s.replicas[r].hand.version;
      var y := x.Stamp(g);
      Put(s, r, y.(hand := Free, outbox := x.outbox + [y.codeVersion]))
        .(events := s.events + [Stamped(r, y.codeVersion, g > 0 && g > x.codeVersion)])
  }

  /** The Run loop takes the room's own update: it becomes the last state whatever its version is. */
  function DoHandleOwn(s: State, r: nat): State {
    if r !in s.replicas || s.replicas[r].outbox == [] then s
    else
      var x := s.replicas[r];
      Put(s, r, x.(last := Some(x.outbox[0]), outbox := x.outbox[1..]))
  }

  function DoDeliver(s: State, r: nat, version: int): State {
    if r !in s.replicas || !s.replicas[r].Accepts(version) then s
    else Put(s, r, s.replicas[r].Accept(version)).(events := s.events + [Accepted(r, version)])
  }

  /** The save worker writes one of the room's snapshots that is newer than what it last saved. */
  function DoSave(s: State, r: nat, version: int, reply: Reply): State {
    if r !in s.replicas || version <= s.replicas[r].lastSaved || !Seen(s.events, r, version) then s
    else
      var t := if reply == Acked then Put(s, r, s.replicas[r].(lastSaved := version)) else s;
      t.(keys := if reply == Refused then s.keys else s.keys.Save(version))
  }

  predicate Seen(events: seq<Event>, r: nat, version: int) {
    exists i :: 0 <= i < |events| && events[i].on == r && events[i].version == version
  }

  function Next(s: State, step: Step): State {
    match step
    case Start(r, restored) => DoStart(s, r, restored)
    case Attempt(r, reply) => DoAttempt(s, r, reply)
    case NoStore(r) => DoNoStore(s, r)
    case Stamp(r) => DoStamp(s, r)
    case HandleOwn(r) => DoHandleOwn(s, r)
    case Deliver(r, v) => DoDeliver(s, r, v)
    case Save(r, v, reply) => DoSave(s, r, v, reply)
    case ExpireCounter => s.(keys := s.keys.(counter := 0))
    case ExpireSaved => s.(keys := s.keys.(saved := 0))
    case ExpireCode => s.(keys := s.keys.(code := None))
  }

  function Exec(s: State, steps: seq<Step>): State {
    if steps == [] then s else Next(Exec(s, steps[..|steps| - 1]), steps[|steps| - 1])
  }

  function Init(keys: Keys): State {
    State(keys, map[], [])
  }

  // The order on one replica.

  /** What one replica stamps and accepts strictly increases. */
  ghost predicate Ordered(events: seq<Event>) {
    forall i, j :: 0 <= i < j < |events| && events[i].on == events[j].on ==> events[i].version < events[j].version
  }

  /** Nothing the replica stamped or accepted is above its counter, and at 0 it has stamped nothing. */
  ghost predicate ReplicaOk(x: Replica, r: nat, events: seq<Event>) {
    && x.codeVersion >= 0 && x.lastSaved >= 0
    && (forall i :: 0 <= i < |events| && events[i].on == r ==> events[i].version <= x.codeVersion)
    && (x.codeVersion == 0 ==>
          && x.outbox == []
          && forall i :: 0 <= i < |events| && events[i].on == r ==> x.last.Some? && events[i].version <= x.last.value)
  }

  ghost predicate OrderInv(s: State) {
    && Unsigned(s.keys.code)
    && Ordered(s.events)
    && (forall i :: 0 <= i < |s.events| ==> s.events[i].on in s.replicas)
    && forall r :: r in s.replicas ==> ReplicaOk(s.replicas[r], r, s.events)
  }

  lemma OthersOk(x: Replica, r: nat, events: seq<Event>, e: Event)
    requires ReplicaOk(x, r, events) && e.on != r
    ensures ReplicaOk(x, r, events + [e])
  {
  }

  lemma OrderedNext(events: seq<Event>, e: Event)
    requires Ordered(events)
    requires forall i :: 0 <= i < |events| && events[i].on == e.on ==> events[i].version < e.version
    ensures Ordered(events + [e])
  {
  }

  lemma StampKeeps(s: State, r: nat)
    requires OrderInv(s)
    ensures OrderInv(DoStamp(s, r))
  {
    if r in s.replicas && s.replicas[r].hand.Holding? {
      var t := DoStamp(s, r);
      var e := t.events[|s.events|];
      assert ReplicaOk(s.replicas[r], r, s.events);
      OrderedNext(s.events, e);
      forall q | q in t.replicas ensures ReplicaOk(t.replicas[q], q, t.events) {
        if q != r {
          OthersOk(s.replicas[q], q, s.events, e);
        }
      }
    }
  }

  lemma DeliverKeeps(s: State, r: nat, version: int)
    requires OrderInv(s)
    ensures OrderInv(DoDeliver(s, r, version))
  {
    if r in s.replicas && s.replicas[r].Accepts(version) {
      var t := DoDeliver(s, r, version);
      var e := Accepted(r, version);
      assert ReplicaOk(s.replicas[r], r, s.events);
      OrderedNext(s.events, e);
      forall q | q in t.replicas ensures ReplicaOk(t.replicas[q], q, t.events) {
        if q != r {
          OthersOk(s.replicas[q], q, s.events, e);
        }
      }
    }
  }

  lemma OrderKeeps(s: State, step: Step)
    requires OrderInv(s)
    ensures OrderInv(Next(s, step))
  {
    match step
    case Stamp(r) => StampKeeps(s, r);
    case Deliver(r, v) => DeliverKeeps(s, r, v);
    case _ =>
      hide Ordered;
  }

  lemma {:induction false} OrderHolds(keys: Keys, steps: seq<Step>)
    requires Unsigned(keys.code)
    ensures OrderInv(Exec(Init(keys), steps))
    decreases |steps|
  {
    if steps != [] {
      hide OrderInv, Next;
      OrderHolds(keys, steps[..|steps| - 1]);
      OrderKeeps(Exec(Init(keys), steps[..|steps| - 1]), steps[|steps| - 1]);
    }
  }

  lemma StepOn(run: seq<Step>, s: State, s0: State, step: Step) returns (run': seq<Step>, s': State)
    requires s == Exec(s0, run)
    ensures run' == run + [step] && s' == Next(s, step) && s' == Exec(s0, run')
  {
    run', s' := run + [step], Next(s, step);
    assert run'[..|run|] == run;
  }

  /** A restored snapshot with a negative version: a stamp without a number from Redis and an accepted update agree. */
  lemma NegativeSnapshotBreaksOrder(keys: Keys) returns (steps: seq<Step>)
    requires !Unsigned(keys.code)
    ensures !Ordered(Exec(Init(keys), steps).events)
  {
    var s0 := Init(keys);
    var s1, s2, s3, s4 := NegativeStates(s0);
    hide Next, Init, Ordered;
    var s;
    steps, s := StepOn([], s0, s0, Start(0, true));
    steps, s := StepOn(steps, s, s0, NoStore(0));
    steps, s := StepOn(steps, s, s0, Stamp(0));
    steps, s := StepOn(steps, s, s0, Deliver(0, 0));
  }

  lemma NegativeStates(s0: State) returns (s1: State, s2: State, s3: State, s4: State)
    requires s0 == Init(s0.keys) && !Unsigned(s0.keys.code)
    ensures s1 == Next(s0, Start(0, true)) && s2 == Next(s1, NoStore(0))
    ensures s3 == Next(s2, Stamp(0)) && s4 == Next(s3, Deliver(0, 0))
    ensures !Ordered(s4.events)
  {
    s1 := Next(s0, Start(0, true));
    s2 := Next(s1, NoStore(0));
    s3 := Next(s2, Stamp(0));
    assert s3.replicas[0].last.value < 0 && s3.events == [Stamped(0, 0, false)];
    s4 := Next(s3, Deliver(0, 0));
    assert s4.events[0].version == s4.events[1].version;
  }

  /**
   Version order. Whatever fails and whatever arrives, the versions a room stamps and accepts strictly increase, each
   above all before it, exactly when the snapshot found in Redis has no negative version.
   */
  lemma VersionOrder(keys: Keys)
    ensures Unsigned(keys.code) <==> forall steps :: Ordered(Exec(Init(keys), steps).events)
  {
    if Unsigned(keys.code) {
      forall steps ensures Ordered(Exec(Init(keys), steps).events) {
        OrderHolds(keys, steps);
      }
    } else {
      var steps := NegativeSnapshotBreaksOrder(keys);
    }
  }

  // What a room takes from elsewhere.

  /** The version of the snapshot the room restored when it started. */
  function Found(keys: Keys, steps: seq<Step>, r: nat): Option<int> {
    if steps == [] then None
    else
      var before, step := steps[..|steps| - 1], steps[|steps| - 1];
      var s := Exec(Init(keys), before);
      if step.Start? && step.r == r && r !in s.replicas then if step.restored then s.keys.code else None
      else Found(keys, before, r)
  }

  /** The room has had the version: it restored it, stamped it or accepted it. */
  predicate Had(r: nat, events: seq<Event>, found: Option<int>, version: int) {
    found == Some(version) || Seen(events, r, version)
  }

  predicate Bounds(x: Replica, version: int) {
    version <= x.codeVersion && (x.codeVersion == 0 ==> x.last.Some? && version <= x.last.value)
  }

  /** A positive counter, the last state and what is on its way to the Run loop are versions the room has had. */
  ghost predicate Abreast(x: Replica, r: nat, events: seq<Event>, found: Option<int>) {
    && (found.Some? ==> Bounds(x, found.value))
    && (x.codeVersion > 0 ==> Had(r, events, found, x.codeVersion))
    && (x.last.Some? ==> Had(r, events, found, x.last.value))
    && forall i :: 0 <= i < |x.outbox| ==> Had(r, events, found, x.outbox[i])
  }

  lemma HadStays(r: nat, events: seq<Event>, events': seq<Event>, found: Option<int>, version: int)
    requires events <= events' && Had(r, events, found, version)
    ensures Had(r, events', found, version)
  {
    if found != Some(version) {
      var i :| 0 <= i < |events| && events[i].on == r && events[i].version == version;
      assert events'[i] == events[i];
    }
  }

  /** A room that already runs goes on having had what it had. */
  lemma AbreastNext(s: State, step: Step, r: nat, found: Option<int>)
    requires OrderInv(s) && r in s.replicas && Abreast(s.replicas[r], r, s.events, found)
    ensures r in Next(s, step).replicas && Abreast(Next(s, step).replicas[r], r, Next(s, step).events, found)
  {
    var x, t := s.replicas[r], Next(s, step);
    var y := t.replicas[r];
    assert s.events <= t.events && ReplicaOk(x, r, s.events);
    forall v | Had(r, s.events, found, v) ensures Had(r, t.events, found, v) {
      HadStays(r, s.events, t.events, found, v);
    }
    if step.Stamp? && step.r == r && x.hand.Holding? {
      assert t.events[|s.events|] == Stamped(r, y.codeVersion, t.events[|s.events|].issued);
      assert Seen(t.events, r, y.codeVersion);
    } else if step.Deliver? && step.r == r && x.Accepts(step.version) {
      assert t.events[|s.events|] == Accepted(r, step.version);
      assert Seen(t.events, r, step.version);
    }
    hide OrderInv, ReplicaOk, Seen;
  }

  lemma AbreastAtStart(s: State, r: nat, restored: bool)
    requires OrderInv(s) && r !in s.replicas
    ensures var t := DoStart(s, r, restored); Abreast(t.replicas[r], r, t.events, if restored then s.keys.code else None)
  {
  }

  lemma {:induction false} AbreastHolds(keys: Keys, steps: seq<Step>, r: nat)
    requires Unsigned(keys.code) && r in Exec(Init(keys), steps).replicas
    ensures var s := Exec(Init(keys), steps); Abreast(s.replicas[r], r, s.events, Found(keys, steps, r))
    decreases |steps|
  {
    var before, step := steps[..|steps| - 1], steps[|steps| - 1];
    var s := Exec(Init(keys), before);
    OrderHolds(keys, before);
    hide OrderInv, Abreast;
    if r in s.replicas {
      AbreastHolds(keys, before, r);
      AbreastNext(s, step, r, Found(keys, before, r));
      hide Next;
    } else {
      AbreastAtStart(s, r, step.restored);
    }
  }

  /**
   A room is never behind and never goes back: in every run it takes an update from elsewhere if and only if the version
   is above every version it has restored, stamped or accepted so far.
   */
  lemma TakenIffNewest(keys: Keys, steps: seq<Step>, r: nat, version: int)
    requires Unsigned(keys.code) && r in Exec(Init(keys), steps).replicas
    ensures var s := Exec(Init(keys), steps);
            var t := Next(s, Deliver(r, version));
            && (t.events == s.events + [Accepted(r, version)]
                <==> forall v :: Had(r, s.events, Found(keys, steps, r), v) ==> v < version)
            && (t.events == s.events + [Accepted(r, version)] || t == s)
            && Bounds(t.replicas[r], version)
  {
    var s := Exec(Init(keys), steps);
    OrderHolds(keys, steps);
    AbreastHolds(keys, steps, r);
    hide Exec, Found, Init;
    TakenIffAbove(s, r, version, Found(keys, steps, r));
  }

  lemma TakenIffAbove(s: State, r: nat, version: int, found: Option<int>)
    requires OrderInv(s) && r in s.replicas && Abreast(s.replicas[r], r, s.events, found)
    ensures s.replicas[r].Accepts(version) <==> forall v :: Had(r, s.events, found, v) ==> v < version
  {
    var x := s.replicas[r];
    assert ReplicaOk(x, r, s.events);
    forall v | Had(r, s.events, found, v) ensures Bounds(x, v) {
      if found != Some(v) {
        var i :| 0 <= i < |s.events| && s.events[i].on == r && s.events[i].version == v;
        assert s.events[i].version <= x.codeVersion;
      }
    }
    hide Seen;
  }

  // The way of a room's own updates.

  /** What the room has stamped, oldest first. */
  function StampedOn(events: seq<Event>, r: nat): seq<int> {
    if events == [] then []
    else
      var e := events[|events| - 1];
      StampedOn(events[..|events| - 1], r) + if e.Stamped? && e.on == r then [e.version] else []
  }

  /** How many of the room's own updates the Run loop has taken. */
  function Handled(s0: State, steps: seq<Step>, r: nat): nat {
    if steps == [] then 0
    else
      var before, step := steps[..|steps| - 1], steps[|steps| - 1];
      var s := Exec(s0, before);
      Handled(s0, before, r) + if step == HandleOwn(r) && r in s.replicas && s.replicas[r].outbox != [] then 1 else 0
  }

  ghost predicate OwnOk(s: State, r: nat, handled: nat) {
    var stamped := StampedOn(s.events, r);
    && handled <= |stamped|
    && if r in s.replicas then s.replicas[r].outbox == stamped[handled..] else stamped == []
  }

  lemma StampedNext(events: seq<Event>, e: Event, r: nat)
    ensures StampedOn(events + [e], r) == StampedOn(events, r) + if e.Stamped? && e.on == r then [e.version] else []
  {
    assert (events + [e])[..|events|] == events;
  }

  lemma OwnNext(s: State, step: Step, r: nat, handled: nat)
    requires OwnOk(s, r, handled)
    ensures OwnOk(Next(s, step), r,
                  handled + if step == HandleOwn(r) && r in s.replicas && s.replicas[r].outbox != [] then 1 else 0)
  {
    var t := Next(s, step);
    if step.Stamp? {
      OwnStamped(s, step.r, r, handled);
    } else if step.Deliver? {
      if t.events != s.events {
        StampedNext(s.events, Accepted(step.r, step.version), r);
      }
      hide StampedOn, Replica.Accepts;
    } else {
      OwnUnstamped(s, step, r);
      hide StampedOn, Next;
    }
  }

  lemma OwnStamped(s: State, q: nat, r: nat, handled: nat)
    requires OwnOk(s, r, handled)
    ensures OwnOk(DoStamp(s, q), r, handled)
  {
    var t := DoStamp(s, q);
    if t.events != s.events {
      StampedNext(s.events, t.events[|s.events|], r);
      hide StampedOn;
    }
  }

  /** The other steps stamp nothing, and leave what is on its way to the Run loop, but for the one it takes. */
  lemma OwnUnstamped(s: State, step: Step, r: nat)
    requires !step.Stamp? && !step.Deliver?
    ensures var t := Next(s, step);
            && t.events == s.events
            && (r in s.replicas ==>
                  && r in t.replicas
                  && t.replicas[r].outbox == if step == HandleOwn(r) && s.replicas[r].outbox != [] then s.replicas[r].outbox[1..]
                                             else s.replicas[r].outbox)
            && (r !in s.replicas && r in t.replicas ==> t.replicas[r].outbox == [])
  {
    hide Seen, TryOnce;
  }

  /**
   In every run the Run loop takes a room's own updates one by one in the order they were stamped, none twice and none
   left out: those still on their way are all after the first ones it has taken.
   */
  lemma {:induction false} OwnInOrder(keys: Keys, steps: seq<Step>, r: nat)
    ensures var s := Exec(Init(keys), steps); OwnOk(s, r, Handled(Init(keys), steps, r))
    decreases |steps|
  {
    if steps != [] {
      var before, step := steps[..|steps| - 1], steps[|steps| - 1];
      OwnInOrder(keys, before, r);
      hide OwnOk, Next;
      OwnNext(Exec(Init(keys), before), step, r, Handled(Init(keys), before, r));
    }
  }

  /** Taking an own update makes it the last state, whatever its version is, and leaves the counter alone. */
  lemma OwnBecomesLast(s: State, r: nat)
    requires r in s.replicas && s.replicas[r].outbox != []
    ensures var x, y := s.replicas[r], Next(s, HandleOwn(r)).replicas[r];
            y.last == Some(x.outbox[0]) && y.codeVersion == x.codeVersion && y.hand == x.hand
  {
  }

  /** Saving writes what the room has seen and not saved yet: the keys are updated unless the call is refused. */
  lemma SaveWrites(s: State, r: nat, version: int, reply: Reply)
    requires r in s.replicas
    ensures var t := Next(s, Save(r, version, reply));
            if version > s.replicas[r].lastSaved && Seen(s.events, r, version) then
              && t.keys == (if reply == Refused then s.keys else s.keys.Save(version))
              && t.replicas[r].lastSaved == (if reply == Acked then version else s.replicas[r].lastSaved)
            else t == s
  {
  }

  // Numbers from Redis are stamped once.

  /** The number a replica is about to stamp, or 0. */
  function HandOf(s: State, r: nat): int {
    if r in s.replicas && s.replicas[r].hand.Holding? then s.replicas[r].hand.version else 0
  }

  predicate IsIssued(e: Event) {
    e.Stamped? && e.issued
  }

  ghost predicate StampedOnce(events: seq<Event>) {
    forall i, j :: 0 <= i < j < |events| && IsIssued(events[i]) && IsIssued(events[j]) ==> events[i].version != events[j].version
  }

  ghost predicate Positive(events: seq<Event>) {
    forall i :: 0 <= i < |events| && IsIssued(events[i]) ==> events[i].version > 0
  }

  ghost predicate NotStamped(events: seq<Event>, version: int) {
    forall i :: 0 <= i < |events| && IsIssued(events[i]) ==> events[i].version != version
  }

  /** Every number out is at most the counter, and is in one hand or on one update. */
  ghost predicate IssuedInv(s: State) {
    && StampedOnce(s.events) && Positive(s.events)
    && (forall i :: 0 <= i < |s.events| && IsIssued(s.events[i]) ==> s.events[i].version <= s.keys.counter)
    && (forall r :: 0 <= HandOf(s, r) <= s.keys.counter && NotStamped(s.events, HandOf(s, r)))
    && (forall r, q :: HandOf(s, r) == HandOf(s, q) && HandOf(s, r) > 0 ==> r == q)
  }

  /** No event, and each hand holds what it held, nothing, or a number that was never out. */
  lemma IssuedHands(s: State, t: State, r: nat)
    requires IssuedInv(s) && t.events == s.events && t.keys.counter >= s.keys.counter
    requires forall q {:trigger HandOf(t, q)} :: q != r ==> HandOf(t, q) == HandOf(s, q)
    requires HandOf(t, r) in {0, HandOf(s, r)} || s.keys.counter < HandOf(t, r) <= t.keys.counter
    ensures IssuedInv(t)
  {
    hide StampedOnce, HandOf;
  }

  lemma AttemptIssues(s: State, r: nat, reply: Reply)
    requires IssuedInv(s)
    ensures IssuedInv(DoAttempt(s, r, reply))
  {
    hide IssuedInv;
    IssuedHands(s, DoAttempt(s, r, reply), r);
  }

  lemma StampIssued(s: State, r: nat)
    requires IssuedInv(s)
    ensures IssuedInv(DoStamp(s, r))
  {
    var t := DoStamp(s, r);
    assert forall q {:trigger HandOf(t, q)} :: HandOf(t, q) == if q == r then 0 else HandOf(s, q);
    if r in s.replicas && s.replicas[r].hand.Holding? {
      assert NotStamped(s.events, HandOf(s, r));
      assert t.events[|s.events|].issued ==> t.events[|s.events|].version == HandOf(s, r);
      hide HandOf;
    }
  }

  lemma DeliverIssued(s: State, r: nat, version: int)
    requires IssuedInv(s)
    ensures IssuedInv(DoDeliver(s, r, version))
  {
    var t := DoDeliver(s, r, version);
    assert forall q {:trigger HandOf(t, q)} :: HandOf(t, q) == HandOf(s, q);
    hide HandOf;
  }

  lemma IssuedKeeps(s: State, step: Step)
    requires IssuedInv(s) && !step.ExpireCounter?
    ensures IssuedInv(Next(s, step))
  {
    if step.Attempt? {
      AttemptIssues(s, step.r, step.reply);
    } else if step.Stamp? {
      StampIssued(s, step.r);
    } else if step.Deliver? {
      DeliverIssued(s, step.r, step.version);
    } else {
      hide IssuedInv;
      IssuedHands(s, Next(s, step), 0);
    }
  }

  lemma {:induction false} IssuedHolds(keys: Keys, steps: seq<Step>)
    requires ExpireCounter !in steps
    ensures IssuedInv(Exec(Init(keys), steps))
    decreases |steps|
  {
    if steps != [] {
      hide IssuedInv, Next;
      IssuedHolds(keys, steps[..|steps| - 1]);
      IssuedKeeps(Exec(Init(keys), steps[..|steps| - 1]), steps[|steps| - 1]);
    }
  }

  /**
   While the counter key lives, two updates stamped with the same version, on whatever replicas, include one that the
   replica numbered by itself. Failed calls, other keys expiring and foreign updates make no difference.
   */
  lemma RepeatsNeedFallback(keys: Keys, steps: seq<Step>, i: nat, j: nat)
    requires ExpireCounter !in steps
    requires var events := Exec(Init(keys), steps).events;
             i < j < |events| && events[i].Stamped? && events[j].Stamped? && events[i].version == events[j].version
    ensures var events := Exec(Init(keys), steps).events; !events[i].issued || !events[j].issued
  {
    IssuedHolds(keys, steps);
  }

  // Without failures, too, a replica can number an update by itself: when it accepts a newer update from elsewhere
  // between taking its number and stamping it. From any such moment the same version can be stamped twice.

  predicate IsStamped(events: seq<Event>, version: int) {
    exists i :: 0 <= i < |events| && events[i].Stamped? && events[i].version == version
  }

  /** Nothing fails, no key expires, and replicas hear only of updates that were stamped. */
  predicate Calm(s: State, step: Step) {
    match step
    case Start(_, restored) => restored
    case Attempt(_, reply) => reply == Acked
    case Deliver(_, v) => IsStamped(s.events, v)
    case Stamp(_) => true
    case HandleOwn(_) => true
    case Save(_, _, reply) => reply == Acked
    case _ => false
  }

  /** What can go wrong: a call that is not answered, a store or a snapshot that is not there, a key that expires. */
  predicate IsFailure(step: Step) {
    match step
    case Start(_, restored) => !restored
    case Attempt(_, reply) => reply != Acked
    case NoStore(_) => true
    case Save(_, _, reply) => reply != Acked
    case ExpireCounter => true
    case ExpireSaved => true
    case ExpireCode => true
    case _ => false
  }

  /** A step is calm exactly when nothing goes wrong in it and what it delivers was stamped somewhere. */
  lemma CalmIff(s: State, step: Step)
    ensures Calm(s, step) <==> !IsFailure(step) && (step.Deliver? ==> IsStamped(s.events, step.version))
  {
  }

  /** An expired key reads as if it had never been written; the others keep what they hold. */
  lemma ExpiryForgets(s: State)
    ensures Next(s, ExpireCounter).keys == Keys(0, s.keys.saved, s.keys.code)
    ensures Next(s, ExpireSaved).keys == Keys(s.keys.counter, 0, s.keys.code)
    ensures Next(s, ExpireCode).keys == Keys(s.keys.counter, s.keys.saved, None)
  {
  }

  predicate CalmRun(s0: State, steps: seq<Step>) {
    forall i :: 0 <= i < |steps| ==> Calm(Exec(s0, steps[..i]), steps[i])
  }

  /** No update has been numbered by its replica so far. */
  predicate AllIssued(events: seq<Event>) {
    forall i :: 0 <= i < |events| && events[i].Stamped? ==> events[i].issued
  }

  predicate IsOut(s: State, version: int) {
    IsStamped(s.events, version) || exists r :: r in s.replicas && s.replicas[r].hand == Holding(version)
  }

  ghost predicate ReplicaCalm(x: Replica, base: int, counter: int) {
    && x.codeVersion <= counter
    && !x.hand.Trying?
    && (x.hand.Holding? ==> base < x.hand.version <= counter)
  }

  predicate KeysCalm(k: Keys) {
    k.saved <= k.counter && (k.code.Some? ==> k.code.value <= k.counter)
  }

  /** Nothing is above the counter, and each number issued since the start is on an update or in a hand. */
  ghost predicate CalmInv(s: State, base: int) {
    && KeysCalm(s.keys)
    && 0 <= base
    && (forall i :: 0 <= i < |s.events| ==> s.events[i].version <= s.keys.counter)
    && (forall r :: r in s.replicas ==> ReplicaCalm(s.replicas[r], base, s.keys.counter))
    && (forall v :: base < v <= s.keys.counter ==> IsOut(s, v))
  }

  lemma AttemptCalm(s: State, r: nat, base: int)
    requires CalmInv(s, base) && base <= s.keys.counter
    ensures CalmInv(DoAttempt(s, r, Acked), base)
  {
    var t := DoAttempt(s, r, Acked);
    if r in s.replicas && !s.replicas[r].hand.Holding? {
      assert t.keys.counter == s.keys.counter + 1;
      assert t.replicas[r].hand == Holding(t.keys.counter);
      forall v | base < v <= t.keys.counter ensures IsOut(t, v) {
        if v <= s.keys.counter {
          assert IsOut(s, v);
          StillOut(s, t, r, v);
        }
      }
    }
  }

  lemma StillOut(s: State, t: State, r: nat, v: int)
    requires IsOut(s, v)
    requires s.events <= t.events && forall q :: q in s.replicas && q != r ==> q in t.replicas && t.replicas[q].hand == s.replicas[q].hand
    requires r in s.replicas && s.replicas[r].hand == Holding(v) ==> IsOut(t, v)
    ensures IsOut(t, v)
  {
  }

  lemma StampCalm(s: State, r: nat, base: int)
    requires CalmInv(s, base) && AllIssued(DoStamp(s, r).events)
    ensures CalmInv(DoStamp(s, r), base)
  {
    var t := DoStamp(s, r);
    if r in s.replicas && s.replicas[r].hand.Holding? {
      var g := s.replicas[r].hand.version;
      assert ReplicaCalm(s.replicas[r], base, s.keys.counter);
      assert t.events[|s.events|].issued && t.events[|s.events|].version == g;
      assert IsStamped(t.events, g);
      forall v | base < v <= t.keys.counter ensures IsOut(t, v) {
        assert IsOut(s, v);
        StillOut(s, t, r, v);
      }
    }
  }

  lemma CalmKeeps(s: State, step: Step, base: int)
    requires CalmInv(s, base) && base <= s.keys.counter && Calm(s, step) && AllIssued(Next(s, step).events)
    ensures CalmInv(Next(s, step), base)
  {
    var t := Next(s, step);
    if step.Attempt? {
      AttemptCalm(s, step.r, base);
    } else if step.Stamp? {
      StampCalm(s, step.r, base);
    } else {
      OthersCalm(s, step, base);
      hide Next, IsOut;
      forall v | base < v <= t.keys.counter ensures IsOut(t, v) {
        assert IsOut(s, v);
        OutStays(s, step, v);
      }
    }
  }

  lemma OthersCalm(s: State, step: Step, base: int)
    requires CalmInv(s, base) && Calm(s, step) && !step.Attempt? && !step.Stamp?
    ensures var t := Next(s, step);
            && KeysCalm(t.keys) && t.keys.counter == s.keys.counter
            && (forall i :: 0 <= i < |t.events| ==> t.events[i].version <= t.keys.counter)
            && (forall r :: r in t.replicas ==> ReplicaCalm(t.replicas[r], base, t.keys.counter))
  {
    hide IsOut;
  }

  lemma OutStays(s: State, step: Step, v: int)
    requires IsOut(s, v) && !step.Attempt? && !step.Stamp? && !step.NoStore?
    ensures IsOut(Next(s, step), v)
  {
    hide IsStamped;
    StampedStays(s, step, v);
    if !IsStamped(s.events, v) {
      var r :| r in s.replicas && s.replicas[r].hand == Holding(v);
      assert r in Next(s, step).replicas && Next(s, step).replicas[r].hand == Holding(v);
    }
  }

  lemma StampedStays(s: State, step: Step, v: int)
    ensures IsStamped(s.events, v) ==> IsStamped(Next(s, step).events, v)
  {
    assert s.events <= Next(s, step).events;
  }

  lemma {:induction false} CalmHolds(keys: Keys, steps: seq<Step>)
    requires KeysCalm(keys) && CalmRun(Init(keys), steps) && AllIssued(Exec(Init(keys), steps).events)
    ensures CalmInv(Exec(Init(keys), steps), keys.counter) && keys.counter <= Exec(Init(keys), steps).keys.counter
    decreases |steps|
  {
    if steps != [] {
      var before, step := steps[..|steps| - 1], steps[|steps| - 1];
      var s := Exec(Init(keys), before);
      assert Calm(s, step);
      assert forall i :: 0 <= i < |before| ==> before[..i] == steps[..i];
      EventsGrow(s, step);
      hide CalmInv, Next, KeysCalm;
      CalmHolds(keys, before);
      CalmKeeps(s, step, keys.counter);
    }
  }

  lemma EventsGrow(s: State, step: Step)
    ensures s.events <= Next(s, step).events
    ensures Calm(s, step) ==> s.keys.counter <= Next(s, step).keys.counter
    ensures AllIssued(Next(s, step).events) ==> AllIssued(s.events)
  {
    assert s.events <= Next(s, step).events;
  }

  ghost predicate Repeated(events: seq<Event>) {
    exists i, j :: 0 <= i < j < |events| && events[i].Stamped? && events[j].Stamped? && events[i].version == events[j].version
  }

  /** The number was overtaken: stamping it now takes the branch that counts up instead. */
  predicate Overtaken(s: State, r: nat) {
    r in s.replicas && s.replicas[r].hand.Holding? && s.replicas[r].hand.version <= s.replicas[r].codeVersion
  }

  lemma StampRepeats(s: State, r: nat)
    requires Overtaken(s, r) && IsStamped(s.events, s.replicas[r].codeVersion + 1)
    ensures Repeated(Next(s, Stamp(r)).events)
  {
    var t := Next(s, Stamp(r));
    var i :| 0 <= i < |s.events| && s.events[i].Stamped? && s.events[i].version == s.replicas[r].codeVersion + 1;
    assert t.events[i] == s.events[i] && t.events[|s.events|].Stamped?;
  }

  /** Two replicas whose next stamp is the same version. */
  lemma TwoStampsRepeat(s: State, r: nat, q: nat)
    requires r != q && Overtaken(s, r) && q in s.replicas
    requires s.replicas[q].hand == Holding(s.replicas[r].codeVersion + 1) && s.replicas[q].codeVersion <= s.replicas[r].codeVersion
    ensures Repeated(Next(Next(s, Stamp(r)), Stamp(q)).events)
  {
    var t := Next(s, Stamp(r));
    var u := Next(t, Stamp(q));
    assert u.events[|s.events|] == t.events[|s.events|];
    assert u.events[|s.events|].version == u.events[|s.events| + 1].version;
  }

  lemma NewcomerRepeats(s: State, r: nat, q: nat)
    requires KeysCalm(s.keys) && Overtaken(s, r) && q !in s.replicas && s.replicas[r].codeVersion == s.keys.counter
    ensures Repeated(Next(Next(Next(Next(s, Start(q, true)), Attempt(q, Acked)), Stamp(r)), Stamp(q)).events)
  {
    var t := Next(s, Start(q, true));
    var u := Next(t, Attempt(q, Acked));
    assert u.replicas[q].hand == Holding(s.keys.counter + 1) && u.replicas[q].codeVersion <= s.keys.counter;
    assert u.replicas[r] == s.replicas[r];
    TwoStampsRepeat(u, r, q);
  }

  lemma ExecMore(s: State, a: Step, b: Step, c: Step, d: Step)
    ensures Exec(s, [a]) == Next(s, a)
    ensures Exec(s, [a, b]) == Next(Next(s, a), b)
    ensures Exec(s, [a, b, c, d]) == Next(Next(Next(Next(s, a), b), c), d)
  {
    hide Next;
    ExecLast(s, [], a);
    ExecLast(s, [a], b);
    ExecLast(s, [a, b], c);
    ExecLast(s, [a, b, c], d);
    assert [] + [a] == [a] && [a] + [b] == [a, b];
    assert [a, b] + [c] == [a, b, c] && [a, b, c] + [d] == [a, b, c, d];
  }

  lemma ExecLast(s: State, steps: seq<Step>, step: Step)
    ensures Exec(s, steps + [step]) == Next(Exec(s, steps), step)
  {
    assert (steps + [step])[..|steps|] == steps;
  }

  lemma Unused(m: map<nat, Replica>) returns (q: nat)
    ensures q !in m
  {
    q := UnusedIn(m.Keys);
  }

  lemma {:induction false} UnusedIn(rs: set<nat>) returns (q: nat)
    ensures forall r :: r in rs ==> r < q
    decreases |rs|
  {
    if rs == {} {
      q := 0;
    } else {
      var r :| r in rs;
      var p := UnusedIn(rs - {r});
      q := if r < p then p else r + 1;
      assert forall x :: x in rs ==> x == r || x in rs - {r};
    }
  }

  predicate NoDeliver(steps: seq<Step>) {
    forall i :: 0 <= i < |steps| ==> !steps[i].Deliver?
  }

  /** Where nothing is delivered, whether a step is calm does not depend on the state. */
  lemma UndeliveredIsCalm(s: State, steps: seq<Step>)
    requires NoDeliver(steps) && forall i :: 0 <= i < |steps| ==> Calm(s, steps[i])
    ensures CalmRun(s, steps)
  {
    hide Exec;
  }

  /** The next version of an overtaken replica is not out yet, is on an update, or is in somebody's hand. */
  lemma NextIsOut(s: State, r: nat, base: int) returns (q: nat)
    requires CalmInv(s, base) && Overtaken(s, r)
    ensures KeysCalm(s.keys) && s.replicas[r].codeVersion <= s.keys.counter
    ensures var v := s.replicas[r].codeVersion + 1;
            || v > s.keys.counter
            || IsStamped(s.events, v)
            || (q in s.replicas && s.replicas[q].hand == Holding(v) && s.replicas[q].codeVersion <= s.keys.counter && q != r)
  {
    var v := s.replicas[r].codeVersion + 1;
    assert ReplicaCalm(s.replicas[r], base, s.keys.counter);
    q := r;
    if v <= s.keys.counter && !IsStamped(s.events, v) {
      assert IsOut(s, v);
      q :| q in s.replicas && s.replicas[q].hand == Holding(v);
      assert ReplicaCalm(s.replicas[q], base, s.keys.counter);
    }
  }

  lemma {:induction false} OvertakenRepeats(s: State, r: nat, base: int) returns (more: seq<Step>)
    requires CalmInv(s, base) && Overtaken(s, r)
    ensures CalmRun(s, more) && NoDeliver(more)
    ensures Repeated(Exec(s, more).events)
    decreases s.keys.counter - s.replicas[r].codeVersion
  {
    hide Exec, Next, CalmInv, Repeated, KeysCalm, IsStamped;
    var q := NextIsOut(s, r, base);
    var v := s.replicas[r].codeVersion + 1;
    if v > s.keys.counter {
      q := Unused(s.replicas);
      more := [Start(q, true), Attempt(q, Acked), Stamp(r), Stamp(q)];
      NewcomerRepeats(s, r, q);
      ExecMore(s, more[0], more[1], more[2], more[3]);
      UndeliveredIsCalm(s, more);
    } else if IsStamped(s.events, v) {
      more := [Stamp(r)];
      StampRepeats(s, r);
      ExecMore(s, Stamp(r), Stamp(r), Stamp(r), Stamp(r));
      UndeliveredIsCalm(s, more);
    } else if s.replicas[q].codeVersion < v {
      more := [Stamp(r), Stamp(q)];
      TwoStampsRepeat(s, r, q);
      ExecMore(s, Stamp(r), Stamp(q), Stamp(r), Stamp(r));
      UndeliveredIsCalm(s, more);
    } else {
      more := OvertakenRepeats(s, q, base);
    }
  }

  /** As long as no number in hand is overtaken, every stamp is of a number from Redis. */
  ghost predicate DistinctInv(s: State, base: int) {
    && CalmInv(s, base) && base <= s.keys.counter && IssuedInv(s) && AllIssued(s.events)
    && forall r :: !Overtaken(s, r)
  }

  lemma NoneOvertakenNext(s: State, step: Step, base: int)
    requires CalmInv(s, base) && Calm(s, step) && !step.Deliver?
    requires forall r :: !Overtaken(s, r)
    ensures forall r :: !Overtaken(Next(s, step), r)
  {
    hide IsOut, IsStamped, Seen;
    forall r ensures !Overtaken(Next(s, step), r) {
      assert !Overtaken(s, r);
      assert r in s.replicas ==> ReplicaCalm(s.replicas[r], base, s.keys.counter);
    }
  }

  lemma StaysIssued(s: State, step: Step, base: int)
    requires CalmInv(s, base) && Calm(s, step) && AllIssued(s.events)
    requires step.Stamp? ==> !Overtaken(s, step.r)
    ensures AllIssued(Next(s, step).events)
  {
    hide IsOut, IsStamped, Seen;
    if step.Stamp? && step.r in s.replicas {
      assert ReplicaCalm(s.replicas[step.r], base, s.keys.counter);
    }
  }

  lemma DistinctKeeps(s: State, step: Step, base: int)
    requires DistinctInv(s, base) && Calm(s, step) && !step.Deliver?
    ensures DistinctInv(Next(s, step), base)
  {
    hide CalmInv, IssuedInv, AllIssued, Next, Overtaken, Calm;
    NoneOvertakenNext(s, step, base);
    StaysIssued(s, step, base);
    EventsGrow(s, step);
    CalmKeeps(s, step, base);
    NoExpiry(s, step);
    IssuedKeeps(s, step);
  }

  lemma NoExpiry(s: State, step: Step)
    requires Calm(s, step)
    ensures !step.ExpireCounter?
  {
  }

  lemma {:induction false} DistinctHolds(s: State, more: seq<Step>, base: int)
    requires DistinctInv(s, base) && CalmRun(s, more) && NoDeliver(more)
    ensures DistinctInv(Exec(s, more), base)
    decreases |more|
  {
    if more != [] {
      var before := more[..|more| - 1];
      hide DistinctInv, Next, Calm;
      assert forall i :: 0 <= i < |before| ==> before[..i] == more[..i];
      DistinctHolds(s, before, base);
      assert Calm(Exec(s, before), more[|more| - 1]);
      DistinctKeeps(Exec(s, before), more[|more| - 1], base);
    }
  }

  lemma DistinctIsNotRepeated(s: State, base: int)
    requires DistinctInv(s, base)
    ensures !Repeated(s.events)
  {
    hide CalmInv;
  }

  /** What holds at the end of a calm run in which no replica has numbered an update by itself. */
  lemma CalmRunHolds(keys: Keys, steps: seq<Step>)
    requires KeysCalm(keys) && CalmRun(Init(keys), steps) && AllIssued(Exec(Init(keys), steps).events)
    ensures var s := Exec(Init(keys), steps); CalmInv(s, keys.counter) && keys.counter <= s.keys.counter && IssuedInv(s)
  {
    CalmHolds(keys, steps);
    assert ExpireCounter !in steps;
    IssuedHolds(keys, steps);
  }

  /** Some calm continuation, in which replicas hear of nothing new, stamps two updates with the same version. */
  ghost predicate CanRepeat(s: State) {
    exists more :: CalmRun(s, more) && NoDeliver(more) && Repeated(Exec(s, more).events)
  }

  /**
   Distinct versions, exactly. Take any run where nothing has failed and no replica has numbered an update by itself,
   and go on without failures and without deliveries: the stamped versions stay distinct whatever happens if and only if
   no number in a replica's hand has been overtaken by that replica's counter.
   */
  lemma DistinctIffNoneOvertaken(keys: Keys, steps: seq<Step>)
    requires KeysCalm(keys) && CalmRun(Init(keys), steps) && AllIssued(Exec(Init(keys), steps).events)
    ensures var s := Exec(Init(keys), steps); (forall r :: !Overtaken(s, r)) <==> !CanRepeat(s)
  {
    var s := Exec(Init(keys), steps);
    CalmRunHolds(keys, steps);
    hide Exec, CalmInv, IssuedInv, AllIssued, CalmRun, NoDeliver, Overtaken, Repeated, Init;
    if forall r :: !Overtaken(s, r) {
      forall more | CalmRun(s, more) && NoDeliver(more) ensures !Repeated(Exec(s, more).events) {
        DistinctHolds(s, more, keys.counter);
        DistinctIsNotRepeated(Exec(s, more), keys.counter);
      }
    } else {
      var r :| Overtaken(s, r);
      var more := OvertakenRepeats(s, r, keys.counter);
    }
  }

  /** From every such run the continuation goes on without any failure and without a delivery. */
  lemma OvertakenNumberBreaksDistinctness(keys: Keys, steps: seq<Step>, r: nat) returns (more: seq<Step>)
    requires KeysCalm(keys) && CalmRun(Init(keys), steps) && AllIssued(Exec(Init(keys), steps).events)
    requires Overtaken(Exec(Init(keys), steps), r)
    ensures !Repeated(Exec(Init(keys), steps).events)
    ensures CalmRun(Exec(Init(keys), steps), more) && NoDeliver(more)
    ensures Repeated(Exec(Exec(Init(keys), steps), more).events)
  {
    CalmRunHolds(keys, steps);
    more := OvertakenRepeats(Exec(Init(keys), steps), r, keys.counter);
  }

  lemma {:induction false} ExecConcat(s: State, a: seq<Step>, b: seq<Step>)
    ensures Exec(s, a + b) == Exec(Exec(s, a), b)
    decreases |b|
  {
    hide Next;
    if b == [] {
      assert a + b == a;
    } else {
      var before, step := b[..|b| - 1], b[|b| - 1];
      ExecConcat(s, a, before);
      ExecLast(s, a + before, step);
      assert a + b == (a + before) + [step];
    }
  }

  lemma CalmThenCalm(s: State, a: seq<Step>, b: seq<Step>)
    requires CalmRun(s, a) && CalmRun(Exec(s, a), b)
    ensures CalmRun(s, a + b)
  {
    hide Exec, Calm;
    forall i | 0 <= i < |a + b| ensures Calm(Exec(s, (a + b)[..i]), (a + b)[i]) {
      if i < |a| {
        assert (a + b)[..i] == a[..i];
      } else {
        ExecConcat(s, a, b[..i - |a|]);
        assert (a + b)[..i] == a + b[..i - |a|];
      }
    }
  }

  lemma CalmOn(run: seq<Step>, s: State, s0: State, step: Step) returns (run': seq<Step>, s': State)
    requires s == Exec(s0, run) && CalmRun(s0, run) && Calm(s, step)
    ensures run' == run + [step] && s' == Next(s, step) && s' == Exec(s0, run') && CalmRun(s0, run')
  {
    hide Calm, Next;
    run', s' := StepOn(run, s, s0, step);
    forall i | 0 <= i < |run'| ensures Calm(Exec(s0, run'[..i]), run'[i]) {
      assert run'[..i] == run[..i];
      if i == |run| {
        assert run[..i] == run;
      }
    }
  }

  lemma OvertakingStates(s0: State) returns (s1: State, s2: State, s3: State, s4: State, s5: State, s6: State)
    requires KeysCalm(s0.keys) && s0 == Init(s0.keys)
    ensures s1 == Next(s0, Start(0, true)) && s2 == Next(s1, Start(1, true))
    ensures s3 == Next(s2, Attempt(0, Acked)) && s4 == Next(s3, Attempt(1, Acked))
    ensures s5 == Next(s4, Stamp(1)) && IsStamped(s5.events, s0.keys.counter + 2)
    ensures s6 == Next(s5, Deliver(0, s0.keys.counter + 2)) && AllIssued(s6.events) && Overtaken(s6, 0)
  {
    var c := s0.keys.counter;
    s1 := Next(s0, Start(0, true));
    s2 := Next(s1, Start(1, true));
    s3 := Next(s2, Attempt(0, Acked));
    assert s3.replicas[0].hand == Holding(c + 1);
    s4 := Next(s3, Attempt(1, Acked));
    assert s4.replicas[1].hand == Holding(c + 2);
    s5 := Next(s4, Stamp(1));
    assert s5.events[0] == Stamped(1, c + 2, true);
    assert IsStamped(s5.events, c + 2);
    assert s5.replicas[0] == s1.replicas[0].(hand := Holding(c + 1));
    s6 := Next(s5, Deliver(0, c + 2));
  }

  /** It can happen from any keys with nothing above the counter: the numbers handed out do not make stamped versions distinct. */
  lemma NumberOvertaken(keys: Keys) returns (steps: seq<Step>)
    requires KeysCalm(keys)
    ensures CalmRun(Init(keys), steps) && AllIssued(Exec(Init(keys), steps).events) && Overtaken(Exec(Init(keys), steps), 0)
  {
    var s0 := Init(keys);
    var s1, s2, s3, s4, s5, s6 := OvertakingStates(s0);
    hide Next, Init, AllIssued, Overtaken;
    var s;
    steps, s := CalmOn([], s0, s0, Start(0, true));
    steps, s := CalmOn(steps, s, s0, Start(1, true));
    steps, s := CalmOn(steps, s, s0, Attempt(0, Acked));
    steps, s := CalmOn(steps, s, s0, Attempt(1, Acked));
    steps, s := CalmOn(steps, s, s0, Stamp(1));
    steps, s := CalmOn(steps, s, s0, Deliver(0, keys.counter + 2));
  }

  /**
   Without any failure or expiry, from any keys with nothing above the counter, versions repeat: a newer update is
   delivered between taking a number and stamping it, and two replicas stamp the same version.
   */
  lemma CalmRunRepeats(keys: Keys)
    requires KeysCalm(keys)
    ensures exists steps :: CalmRun(Init(keys), steps) && Repeated(Exec(Init(keys), steps).events)
  {
    var steps := NumberOvertaken(keys);
    var more := OvertakenNumberBreaksDistinctness(keys, steps, 0);
    CalmThenCalm(Init(keys), steps, more);
    ExecConcat(Init(keys), steps, more);
    hide *;
    assert CalmRun(Init(keys), steps + more) && Repeated(Exec(Init(keys), steps + more).events);
  }

  /** The attempts of one allocation, until it has a number or has failed three times. */
  function Allocate(k: Keys, hand: Hand, replies: seq<Reply>): (Keys, Hand)
    decreases |replies|
  {
    if hand.Holding? || replies == [] then (k, hand)
    else
      var (k', hand') := TryOnce(k, hand, replies[0]);
      Allocate(k', hand', replies[1..])
  }

  /** How many numbers calls with these outcomes have taken. */
  function Taken(replies: seq<Reply>): nat {
    if replies == [] then 0 else (if replies[0] == Refused then 0 else 1) + Taken(replies[1..])
  }

  /** The counter after taking n numbers: the first is above the saved version too, the others follow. */
  function After(k: Keys, n: nat): Keys {
    if n == 0 then k else k.(counter := (if k.saved > k.counter then k.saved else k.counter) + n)
  }

  /** As long as no attempt is acknowledged: three are made, those not refused have cost a number, and then there is none. */
  lemma {:induction false} UnansweredAttempts(k: Keys, failed: nat, replies: seq<Reply>)
    requires failed < MAX_ATTEMPTS && Acked !in replies
    ensures var n := if |replies| < MAX_ATTEMPTS - failed then |replies| else MAX_ATTEMPTS - failed;
            Allocate(k, if failed == 0 then Free else Trying(failed), replies)
            == (After(k, Taken(replies[..n])),
                if failed + n == MAX_ATTEMPTS then Holding(0) else if failed + n == 0 then Free else Trying(failed + n))
    decreases |replies|
  {
    if replies != [] {
      var n := if |replies| < MAX_ATTEMPTS - failed then |replies| else MAX_ATTEMPTS - failed;
      var k' := if replies[0] == Refused then k else k.Issue();
      assert replies[..n][1..] == replies[1..][..n - 1] && replies[..n][0] == replies[0];
      if failed + 1 < MAX_ATTEMPTS {
        UnansweredAttempts(k', failed + 1, replies[1..]);
      } else {
        assert replies[..1][1..] == [];
      }
    }
  }

  /** The first acknowledged of the three attempts ends the allocation, with the number it took. */
  lemma {:induction false} AnsweredAttempt(k: Keys, failed: nat, replies: seq<Reply>, n: nat)
    requires failed + n < MAX_ATTEMPTS && n < |replies| && Acked !in replies[..n] && replies[n] == Acked
    ensures var t := After(k, Taken(replies[..n]) + 1);
            Allocate(k, if failed == 0 then Free else Trying(failed), replies) == (t, Holding(t.counter))
    decreases n
  {
    if n > 0 {
      assert replies[0] == replies[..n][0];
      assert replies[..n][1..] == replies[1..][..n - 1];
      AnsweredAttempt(if replies[0] == Refused then k else k.Issue(), failed + 1, replies[1..], n - 1);
    }
  }

  class CodeRoom {
    var codeVersion: int
    var last: Option<int>
    var hand: Hand
    var outbox: seq<int>
    const lastSaved: int

    constructor (code: Option<int>)
      ensures View() == Restored(code)
    {
      codeVersion := if code.Some? then code.value else 0;
      lastSaved := if code.Some? then code.value else 0;
      last, hand, outbox := code, Free, [];
    }

    function View(): Replica
      reads this
    {
      Replica(codeVersion, last, hand, outbox, lastSaved)
    }

    /** The three attempts of the worker. It ends with a number above every one issued and saved before, or with none. */
    method AllocateVersion(store: RedisStore, replies: seq<Reply>)
      requires hand == Free && |replies| == MAX_ATTEMPTS
      modifies this`hand, store`counter
      ensures (store.View(), hand) == Allocate(old(store.View()), Free, replies)
      ensures hand.Holding?
      ensures hand.version == 0 <==> Acked !in replies
      ensures hand.version != 0 ==>
                hand.version > old(store.counter) && hand.version > store.saved && hand.version == store.counter
    {
      var failed := 0;
      while failed < MAX_ATTEMPTS && !hand.Holding?
        invariant 0 <= failed <= MAX_ATTEMPTS
        invariant !hand.Holding? ==> hand == (if failed == 0 then Free else Trying(failed)) && failed < MAX_ATTEMPTS
        invariant !hand.Holding? ==> Acked !in replies[..failed]
        invariant Allocate(old(store.View()), Free, replies) == Allocate(store.View(), hand, replies[failed..])
        invariant store.saved == old(store.saved) && store.counter >= old(store.counter)
        invariant hand.Holding? && hand.version == 0 ==> Acked !in replies
        invariant hand.Holding? && hand.version != 0 ==>
                    && Acked in replies
                    && hand.version > old(store.counter) && hand.version > store.saved && hand.version == store.counter
        decreases !hand.Holding?, MAX_ATTEMPTS - failed
      {
        assert replies[failed..][0] == replies[failed] && replies[failed..][1..] == replies[failed + 1..];
        assert replies[..failed + 1] == replies[..failed] + [replies[failed]];
        var version := 0;
        if replies[failed] != Refused {
          version := store.NextCodeVersion();
        }
        if replies[failed] == Acked {
          hand := Holding(version);
        } else {
          failed := failed + 1;
          hand := if failed < MAX_ATTEMPTS then Trying(failed) else Holding(0);
          if failed == MAX_ATTEMPTS {
            assert replies[..failed] == replies;
          }
        }
      }
    }

    /** The local update gets a version above everything the room has stamped or accepted. */
    method StampUpdate() returns (version: int)
      requires hand.Holding?
      modifies this
      ensures View() == old(View()).Stamp(old(hand).version).(hand := Free, outbox := old(outbox) + [version])
      ensures version == codeVersion && version > old(codeVersion)
    {
      version := hand.version;
      if version <= codeVersion {
        codeVersion := codeVersion + 1;
        version := codeVersion;
      } else {
        codeVersion := version;
      }
      hand, outbox := Free, outbox + [version];
    }

    /** A room's own update is always taken; one from elsewhere only if it is newer than all the room has seen. */
    method HandleUpdate(version: int, isRemote: bool) returns (taken: bool)
      modifies this`codeVersion, this`last
      ensures taken <==> !isRemote || old(View()).Accepts(version)
      ensures isRemote ==> version <= codeVersion || (last.Some? && version <= last.value)
      ensures View() == if !isRemote then old(View()).(last := Some(version))
                        else if taken then old(View()).Accept(version) else old(View())
    {
      if isRemote {
        if last.Some? && version <= last.value {
          return false;
        }
        if version <= codeVersion && codeVersion > 0 {
          return false;
        }
        if version > codeVersion {
          codeVersion := version;
        }
      }
      last := Some(version);
      taken := true;
    }
  }
}
