/**
 The consumer with its cache and a clock: PushDelivery decides by the real DedupCache what it has seen, so forgetting is
 no longer a step of its own but what expiry and eviction make of it.
 */
module PushOnce {
  import opened Basics
  import opened DedupCache
  import P = PushDelivery

  /** A step and the clock while it is taken. */
  datatype Event = Event(step: P.Step, now: int)

  datatype World = World(state: P.State, cache: Cache)

  predicate Recalls(c: Cache, id: nat, now: int) {
    var i := Find(c.seen, id);
    i >= 0 && now - c.seen[i].at < c.ttl
  }

  /** The keys the cache would still turn away as delivered. */
  function Seen(c: Cache, now: int): set<P.Key> {
    set r | r in c.seen && Recalls(c, r.id, now) :: P.MessageId(r.id)
  }

  /** What the consumer goes by at that moment. */
  function Facing(w: World, now: int): P.State {
    w.state.(seen := Seen(w.cache, now))
  }

  predicate Arrives(s: P.State, step: P.Step, id: nat) {
    && step.Deliver? && step.handler !in s.handlers
    && step.tag in s.items && s.items[step.tag].place == P.Main && s.items[step.tag].copy.key == P.MessageId(id)
  }

  /** A handler's attempt to send the notification succeeds. */
  predicate Sends(s: P.State, step: P.Step, id: nat) {
    && step.Attempt? && step.outcome == P.Delivered && step.handler in s.handlers
    && s.handlers[step.handler].phase == P.Sending && s.handlers[step.handler].copy.key == P.MessageId(id)
  }

  /** A handler is done without having sent it. */
  predicate GivesUp(s: P.State, step: P.Step, id: nat) {
    && step.Republish? && step.tag !in s.items && step.handler in s.handlers
    && s.handlers[step.handler].phase != P.Sending && s.handlers[step.handler].copy.key == P.MessageId(id)
  }

  /** The messageId a step is about, if any. */
  function IdOf(s: P.State, step: P.Step): Option<nat> {
    var key :=
      if step.Deliver? && step.tag in s.items then Some(s.items[step.tag].copy.key)
      else if (step.Attempt? || step.Republish?) && step.handler in s.handlers then Some(s.handlers[step.handler].copy.key)
      else None;
    if key.Some? && key.value.MessageId? then Some(key.value.id) else None
  }

  /** The call a step makes on the cache, if it makes one. */
  function CallOf(s: P.State, e: Event): seq<Op> {
    if IdOf(s, e.step) == None then []
    else
      var id := IdOf(s, e.step).value;
      if Arrives(s, e.step, id) then [Begin(id, e.now)]
      else if Sends(s, e.step, id) then [Complete(id, e.now)]
      else if GivesUp(s, e.step, id) then [Release(id, e.now)]
      else []
  }

  function Do(c: Cache, op: Op): Cache {
    match op
    case Begin(id, now) => c.Begin(id, now)
    case Complete(id, now) => c.Complete(id, now)
    case Release(id, _) => c.Release(id)
  }

  function Empty(capacity: nat, ttl: int): Cache {
    Cache([], {}, capacity, ttl)
  }

  /** A crash takes the cache with it. */
  function Next(w: World, e: Event): World {
    if e.step.Forget? then w
    else
      var call := CallOf(w.state, e);
      World(P.Next(Facing(w, e.now), e.step),
            if e.step.Crash? then Empty(w.cache.capacity, w.cache.ttl) else if call == [] then w.cache else Do(w.cache, call[0]))
  }

  function Exec(capacity: nat, ttl: int, events: seq<Event>): World {
    if events == [] then World(P.INIT, Empty(capacity, ttl))
    else Next(Exec(capacity, ttl, events[..|events| - 1]), events[|events| - 1])
  }

  /** The calls on the cache since the last crash. */
  function Calls(capacity: nat, ttl: int, events: seq<Event>): seq<Op> {
    if events == [] then []
    else
      var before, e := events[..|events| - 1], events[|events| - 1];
      if e.step.Crash? then [] else Calls(capacity, ttl, before) + CallOf(Exec(capacity, ttl, before).state, e)
  }

  // The cache and the consumer agree.

  /** The same ids are in flight for both, and what the cache remembers was sent. */
  ghost predicate Agree(w: World) {
    && (forall id: nat :: P.MessageId(id) in w.state.inFlight <==> id in w.cache.inFlight)
    && (forall r :: r in w.cache.seen ==> P.MessageId(r.id) in w.state.sent)
  }

  ghost predicate WorldInv(w: World) {
    P.PushInv(w.state) && Agree(w)
  }

  lemma SeenIff(c: Cache, id: nat, now: int)
    ensures P.MessageId(id) in Seen(c, now) <==> Recalls(c, id, now)
  {
    if Recalls(c, id, now) {
      assert c.seen[Find(c.seen, id)] in c.seen;
    }
  }

  /** The consumer turns a message away exactly when begin() does. */
  lemma RejectsIff(w: World, c: P.Copy, id: nat, now: int)
    requires Agree(w) && c.key == P.MessageId(id)
    ensures P.Rejects(Facing(w, now), c) <==> w.cache.Knows(id, now)
  {
    SeenIff(w.cache, id, now);
    hide Seen;
  }

  lemma FacingOk(w: World, now: int)
    requires WorldInv(w)
    ensures P.PushInv(Facing(w, now))
  {
    var s := Facing(w, now);
    assert forall h :: P.IsLive(s, h) <==> P.IsLive(w.state, h);
    assert forall h, k :: P.Carries(s, h, k) <==> P.Carries(w.state, h, k);
    forall k | k in s.inFlight ensures exists h :: P.Carries(s, h, k) {
      var h :| P.Carries(w.state, h, k);
      assert P.Carries(s, h, k);
    }
  }

  lemma WithoutSeen(seen: seq<Record>, id: nat)
    ensures forall r :: r in Without(seen, id) ==> r in seen
  {
    hide Find;
  }

  lemma CompletedSeen(c: Cache, id: nat, now: int)
    ensures forall r :: r in c.Complete(id, now).seen ==> r in c.seen || r.id == id
    ensures c.Complete(id, now).inFlight == c.inFlight - {id}
  {
    var all := Without(c.seen, id) + [Record(id, now)];
    WithoutSeen(c.seen, id);
    hide Without, Expired;
    var rest := all[Expired(all, now, c.ttl)..];
    assert forall r :: r in rest ==> r in all;
    assert forall r :: r in Newest(rest, c.capacity) ==> r in rest;
  }

  lemma ArriveAgrees(w: World, e: Event, id: nat)
    requires Agree(w) && Arrives(w.state, e.step, id)
    ensures CallOf(w.state, e) == [Begin(id, e.now)] && Agree(Next(w, e))
  {
    RejectsIff(w, w.state.items[e.step.tag].copy, id, e.now);
    hide Cache.Knows, Seen, P.Rejects;
  }

  lemma SendAgrees(w: World, e: Event, id: nat)
    requires Agree(w) && Sends(w.state, e.step, id)
    ensures CallOf(w.state, e) == [Complete(id, e.now)] && Agree(Next(w, e))
  {
    CompletedSeen(w.cache, id, e.now);
    hide Cache.Complete, Seen;
  }

  lemma GiveUpAgrees(w: World, e: Event, id: nat)
    requires Agree(w) && GivesUp(w.state, e.step, id)
    ensures CallOf(w.state, e) == [Release(id, e.now)] && Agree(Next(w, e))
  {
    hide Seen;
  }

  lemma QuietAgrees(w: World, e: Event)
    requires Agree(w) && CallOf(w.state, e) == []
    ensures Agree(Next(w, e))
  {
    hide Seen, P.NextHop, P.Requeued;
  }

  /** A step makes at most one call, and which one it makes is known by what it does. */
  lemma CallIs(s: P.State, e: Event)
    ensures CallOf(s, e) == [] ||
            exists id :: Arrives(s, e.step, id) || Sends(s, e.step, id) || GivesUp(s, e.step, id)
  {
  }

  lemma WorldKeeps(w: World, e: Event)
    requires WorldInv(w)
    ensures WorldInv(Next(w, e))
  {
    FacingOk(w, e.now);
    P.PushKeeps(Facing(w, e.now), e.step);
    CallIs(w.state, e);
    hide P.PushInv, P.Next, Agree, Facing;
    if CallOf(w.state, e) == [] {
      QuietAgrees(w, e);
    } else {
      var id :| Arrives(w.state, e.step, id) || Sends(w.state, e.step, id) || GivesUp(w.state, e.step, id);
      if Arrives(w.state, e.step, id) {
        ArriveAgrees(w, e, id);
      } else if Sends(w.state, e.step, id) {
        SendAgrees(w, e, id);
      } else {
        GiveUpAgrees(w, e, id);
      }
    }
  }

  lemma {:induction false} WorldHolds(capacity: nat, ttl: int, events: seq<Event>)
    ensures WorldInv(Exec(capacity, ttl, events))
    decreases |events|
  {
    if events != [] {
      hide WorldInv, Next;
      WorldHolds(capacity, ttl, events[..|events| - 1]);
      WorldKeeps(Exec(capacity, ttl, events[..|events| - 1]), events[|events| - 1]);
    }
  }

  // Never lost, with the real cache.

  ghost predicate RiskyAt(capacity: nat, ttl: int, events: seq<Event>, i: nat)
    requires i < |events|
  {
    P.Risky(Facing(Exec(capacity, ttl, events[..i]), events[i].now), events[i].step)
  }

  /** As for any cache: nothing published is ever lost exactly when no event is risky. */
  lemma NeverLost(capacity: nat, ttl: int, events: seq<Event>)
    ensures (forall i :: 0 <= i < |events| ==> !RiskyAt(capacity, ttl, events, i))
            <==> forall n :: 0 <= n <= |events| ==> P.NothingLost(Exec(capacity, ttl, events[..n]).state)
  {
    if forall i :: 0 <= i < |events| ==> !RiskyAt(capacity, ttl, events, i) {
      forall n | 0 <= n <= |events| ensures P.NothingLost(Exec(capacity, ttl, events[..n]).state) {
        RisklessKeepsAll(capacity, ttl, events, n);
      }
    } else {
      var i :| 0 <= i < |events| && RiskyAt(capacity, ttl, events, i);
      var w := Exec(capacity, ttl, events[..i]);
      WorldHolds(capacity, ttl, events[..i]);
      FacingOk(w, events[i].now);
      P.RiskyLoses(Facing(w, events[i].now), events[i].step);
      assert events[..i + 1][..i] == events[..i];
      assert Exec(capacity, ttl, events[..i + 1]) == Next(w, events[i]);
    }
  }

  lemma {:induction false} RisklessKeepsAll(capacity: nat, ttl: int, events: seq<Event>, n: nat)
    requires (forall i :: 0 <= i < |events| ==> !RiskyAt(capacity, ttl, events, i)) && n <= |events|
    ensures P.NothingLost(Exec(capacity, ttl, events[..n]).state)
    decreases n
  {
    if n > 0 {
      var w, e := Exec(capacity, ttl, events[..n - 1]), events[n - 1];
      RisklessKeepsAll(capacity, ttl, events, n - 1);
      WorldHolds(capacity, ttl, events[..n - 1]);
      FacingOk(w, e.now);
      assert !RiskyAt(capacity, ttl, events, n - 1);
      assert P.NothingLost(Facing(w, e.now));
      P.LosesIffRisky(Facing(w, e.now), e.step);
      assert events[..n][..n - 1] == events[..n - 1];
      hide P.NothingLost, P.Next, P.Risky, P.PushInv, Facing;
    }
  }

  lemma ExecNext(capacity: nat, ttl: int, events: seq<Event>, e: Event)
    ensures Exec(capacity, ttl, events + [e]) == Next(Exec(capacity, ttl, events), e)
  {
    assert (events + [e])[..|events|] == events;
  }

  /**
   The cache turns nothing away for good: a message in the main queue whose id is not in flight, and not remembered any
   more or never delivered, can be delivered and sent, in any run.
   */
  lemma CanBeSentAgain(capacity: nat, ttl: int, events: seq<Event>, tag: nat, id: nat, h: nat, now: int)
    requires var w := Exec(capacity, ttl, events);
             && tag in w.state.items && w.state.items[tag] == P.Item(w.state.items[tag].copy, P.Main)
             && w.state.items[tag].copy.key == P.MessageId(id)
             && !w.cache.Knows(id, now) && h !in w.state.handlers
    ensures var t := Exec(capacity, ttl, events + [Event(P.Deliver(tag, h, true), now)] + [Event(P.Attempt(h, P.Delivered, true), now)]);
            P.MessageId(id) in t.state.sent && tag !in t.state.items
  {
    var w, a, b := Exec(capacity, ttl, events), Event(P.Deliver(tag, h, true), now), Event(P.Attempt(h, P.Delivered, true), now);
    WorldHolds(capacity, ttl, events);
    RejectsIff(w, w.state.items[tag].copy, id, now);
    ExecNext(capacity, ttl, events, a);
    ExecNext(capacity, ttl, events + [a], b);
    hide Exec, WorldInv, Cache.Knows, Seen, P.Rejects;
    assert Next(w, a).state.handlers[h] == P.Handler(tag, w.state.items[tag].copy, false, P.Sending);
  }

  // The cache since the last crash is a run of DedupCache.

  predicate Timed(events: seq<Event>) {
    forall i, j :: 0 <= i <= j < |events| ==> events[i].now <= events[j].now
  }

  lemma RunNext(capacity: nat, ttl: int, ops: seq<Op>, op: Op)
    ensures Run(capacity, ttl, ops + [op]) == Do(Run(capacity, ttl, ops), op)
  {
    assert (ops + [op])[..|ops|] == ops;
  }

  lemma CallAtMostOne(s: P.State, e: Event)
    ensures |CallOf(s, e)| <= 1 && forall op :: op in CallOf(s, e) ==> op.now == e.now
  {
  }

  lemma {:induction false} RunLimits(capacity: nat, ttl: int, ops: seq<Op>)
    ensures Run(capacity, ttl, ops).capacity == capacity && Run(capacity, ttl, ops).ttl == ttl
    ensures Run(capacity, ttl, []) == Empty(capacity, ttl)
    decreases |ops|
  {
    if ops != [] {
      RunLimits(capacity, ttl, ops[..|ops| - 1]);
    }
  }

  lemma {:induction false} CacheIsRun(capacity: nat, ttl: int, events: seq<Event>)
    ensures Exec(capacity, ttl, events).cache == Run(capacity, ttl, Calls(capacity, ttl, events))
    decreases |events|
  {
    if events != [] {
      var before, e := events[..|events| - 1], events[|events| - 1];
      CacheIsRun(capacity, ttl, before);
      var w, calls := Exec(capacity, ttl, before), Calls(capacity, ttl, before);
      var call := CallOf(w.state, e);
      CallAtMostOne(w.state, e);
      RunLimits(capacity, ttl, calls);
      if call != [] {
        assert call == [call[0]];
        RunNext(capacity, ttl, calls, call[0]);
      } else {
        assert calls + call == calls;
      }
      hide Run, Do, Facing, P.Next;
    }
  }

  lemma {:induction false} CallsClocked(capacity: nat, ttl: int, events: seq<Event>, now: int)
    requires Timed(events) && (events != [] ==> events[|events| - 1].now <= now)
    ensures Clocked(Calls(capacity, ttl, events))
    ensures forall op :: op in Calls(capacity, ttl, events) ==> op.now <= now
    decreases |events|
  {
    if events != [] {
      var before, e := events[..|events| - 1], events[|events| - 1];
      CallsClocked(capacity, ttl, before, e.now);
      CallAtMostOne(Exec(capacity, ttl, before).state, e);
      hide CallOf, Exec;
    }
  }

  /** A handler completes only an id it took with begin(): what it carries is in flight. */
  lemma SendsWhatIsInFlight(w: World, step: P.Step, id: nat)
    requires WorldInv(w) && Sends(w.state, step, id)
    ensures id in w.cache.inFlight
  {
    assert P.Carries(w.state, step.handler, P.MessageId(id));
  }

  lemma {:induction false} CallsDisciplined(capacity: nat, ttl: int, events: seq<Event>)
    ensures Disciplined(capacity, ttl, Calls(capacity, ttl, events))
    decreases |events|
  {
    if events != [] {
      var before, e := events[..|events| - 1], events[|events| - 1];
      CallsDisciplined(capacity, ttl, before);
      var w, calls := Exec(capacity, ttl, before), Calls(capacity, ttl, before);
      WorldHolds(capacity, ttl, before);
      CacheIsRun(capacity, ttl, before);
      CallAtMostOne(w.state, e);
      var ops := Calls(capacity, ttl, events);
      forall j | 0 <= j < |ops| && ops[j].Complete? ensures ops[j].id in Run(capacity, ttl, ops[..j]).inFlight {
        if j < |calls| {
          assert ops[..j] == calls[..j] && ops[j] == calls[j];
        } else {
          assert ops[..j] == calls && CallOf(w.state, e) == [ops[j]];
          SendsWhatIsInFlight(w, e.step, ops[j].id);
        }
      }
    }
  }

  /** Each call was made by some event, after the calls before it. */
  lemma {:induction false} CallFrom(capacity: nat, ttl: int, events: seq<Event>, b: nat) returns (n: nat)
    requires b < |Calls(capacity, ttl, events)|
    ensures n < |events| && Calls(capacity, ttl, events[..n]) == Calls(capacity, ttl, events)[..b]
    ensures events[n].now == Calls(capacity, ttl, events)[b].now
    decreases |events|
  {
    hide Exec, CallOf;
    var before, e := events[..|events| - 1], events[|events| - 1];
    var calls, all := Calls(capacity, ttl, before), Calls(capacity, ttl, events);
    CallAtMostOne(Exec(capacity, ttl, before).state, e);
    assert all == calls + CallOf(Exec(capacity, ttl, before).state, e);
    if b < |calls| {
      n := CallFrom(capacity, ttl, before, b);
      hide Calls;
      assert events[..n] == before[..n];
      assert all[..b] == calls[..b];
    } else {
      n := |before|;
      hide Calls;
      assert all[..b] == calls;
    }
  }

  /** Without a crash in between, calls are only added. */
  lemma {:induction false} CallsGrow(capacity: nat, ttl: int, events: seq<Event>, i: nat)
    requires i <= |events| && forall n :: i <= n < |events| ==> !events[n].step.Crash?
    ensures Calls(capacity, ttl, events[..i]) <= Calls(capacity, ttl, events)
    decreases |events|
  {
    if i < |events| {
      var before := events[..|events| - 1];
      CallsGrow(capacity, ttl, before, i);
      assert before[..i] == events[..i];
    } else {
      assert events[..i] == events;
    }
  }

  lemma SendIsCalled(capacity: nat, ttl: int, events: seq<Event>, i: nat, id: nat)
    requires i < |events| && Sends(Exec(capacity, ttl, events[..i]).state, events[i].step, id)
    ensures Calls(capacity, ttl, events[..i + 1]) == Calls(capacity, ttl, events[..i]) + [Complete(id, events[i].now)]
  {
    assert events[..i + 1][..i] == events[..i];
    hide Exec;
  }

  /** At every event of the run, no more ids than the cache holds had been completed within the last ttl. */
  ghost predicate Within(capacity: nat, ttl: int, events: seq<Event>) {
    events == []
    || (&& Within(capacity, ttl, events[..|events| - 1])
        && Recent(Completions(Calls(capacity, ttl, events[..|events| - 1])), events[|events| - 1].now, ttl) <= capacity)
  }

  lemma {:induction false} PrefixWithin(capacity: nat, ttl: int, events: seq<Event>, m: nat)
    requires Within(capacity, ttl, events) && m <= |events|
    ensures Within(capacity, ttl, events[..m])
    ensures m < |events| ==> Recent(Completions(Calls(capacity, ttl, events[..m])), events[m].now, ttl) <= capacity
    decreases |events|
  {
    hide Calls, Recent, Completions;
    if m < |events| - 1 {
      var before := events[..|events| - 1];
      PrefixWithin(capacity, ttl, before, m);
      assert before[..m] == events[..m];
    } else {
      assert events[..|events|] == events;
    }
  }

  lemma CallsWithin(capacity: nat, ttl: int, events: seq<Event>)
    requires Within(capacity, ttl, events)
    ensures var ops := Calls(capacity, ttl, events);
            forall x :: 0 <= x < |ops| ==> Recent(Completions(ops[..x]), ops[x].now, ttl) <= capacity
  {
    var ops := Calls(capacity, ttl, events);
    forall x | 0 <= x < |ops| ensures Recent(Completions(ops[..x]), ops[x].now, ttl) <= capacity {
      var n := CallFrom(capacity, ttl, events, x);
      PrefixWithin(capacity, ttl, events, n);
    }
    hide Within;
  }

  /** Where the calls of two successful sends stand. */
  lemma TwoSends(capacity: nat, ttl: int, events: seq<Event>, i: nat, id: nat) returns (a: nat, b: nat)
    requires i < |events| - 1
    requires Sends(Exec(capacity, ttl, events[..i]).state, events[i].step, id)
    requires Sends(Exec(capacity, ttl, events[..|events| - 1]).state, events[|events| - 1].step, id)
    requires forall n :: i < n < |events| - 1 ==> !events[n].step.Crash?
    ensures var ops := Calls(capacity, ttl, events);
            && a < b < |ops| && ops[a] == Complete(id, events[i].now) && ops[b] == Complete(id, events[|events| - 1].now)
  {
    hide *;
    var j := |events| - 1;
    var first := Calls(capacity, ttl, events[..i + 1]);
    a, b := |Calls(capacity, ttl, events[..i])|, |Calls(capacity, ttl, events[..j])|;
    SendIsCalled(capacity, ttl, events, i, id);
    SendIsCalled(capacity, ttl, events, j, id);
    CallsGrow(capacity, ttl, events[..j], i + 1);
    assert events[..j][..i + 1] == events[..i + 1] && events[..j + 1] == events;
    assert first[a] == Complete(id, events[i].now);
    assert first <= Calls(capacity, ttl, events[..j]) <= Calls(capacity, ttl, events);
  }

  /**
   Without a crash in between, two sends of one messageId that succeed are at least ttl apart, whatever is dropped,
   redelivered or republished, as long as no more ids than the cache holds are completed within one ttl.
   */
  lemma SentOncePerTtl(capacity: nat, ttl: int, events: seq<Event>, i: nat, j: nat, id: nat)
    requires Timed(events) && Within(capacity, ttl, events) && i < j < |events|
    requires Sends(Exec(capacity, ttl, events[..i]).state, events[i].step, id)
    requires Sends(Exec(capacity, ttl, events[..j]).state, events[j].step, id)
    requires forall n :: i < n < j ==> !events[n].step.Crash?
    ensures events[j].now - events[i].now >= ttl
  {
    hide *;
    var run := events[..j + 1];
    PrefixWithin(capacity, ttl, events, j + 1);
    assert Timed(run) by {
      TimedPrefix(events, j + 1);
    }
    assert run[..i] == events[..i] && run[..|run| - 1] == events[..j] && run[i] == events[i] && run[j] == events[j];
    LastSendApart(capacity, ttl, run, i, id);
  }

  lemma TimedPrefix(events: seq<Event>, m: nat)
    requires Timed(events) && m <= |events|
    ensures Timed(events[..m])
  {
  }

  lemma LastSendApart(capacity: nat, ttl: int, events: seq<Event>, i: nat, id: nat)
    requires Timed(events) && Within(capacity, ttl, events) && i < |events| - 1
    requires Sends(Exec(capacity, ttl, events[..i]).state, events[i].step, id)
    requires Sends(Exec(capacity, ttl, events[..|events| - 1]).state, events[|events| - 1].step, id)
    requires forall n :: i < n < |events| - 1 ==> !events[n].step.Crash?
    ensures events[|events| - 1].now - events[i].now >= ttl
  {
    hide *;
    var a, b := TwoSends(capacity, ttl, events, i, id);
    CallsClocked(capacity, ttl, events, events[|events| - 1].now);
    CallsDisciplined(capacity, ttl, events);
    CallsWithin(capacity, ttl, events);
    SendsApart(capacity, ttl, Calls(capacity, ttl, events), a, b);
  }
}
