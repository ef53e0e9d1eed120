/**
 The bounded memory of delivered message ids: insertion-ordered records that expire and are evicted oldest first, and
 the set of ids being delivered right now.
 */
module DedupCache {

  const DEDUP_CAPACITY: nat := 10000
  const DEDUP_TTL_MS: int := 600000

  datatype Record = Record(id: nat, at: int)

  function Find(seen: seq<Record>, id: nat): (i: int)
    ensures -1 <= i < |seen|
    ensures i >= 0 ==> seen[i].id == id
    ensures i == -1 ==> forall k :: 0 <= k < |seen| ==> seen[k].id != id
  {
    if seen == [] then -1
    else if seen[|seen| - 1].id == id then |seen| - 1
    else Find(seen[..|seen| - 1], id)
  }

  function RemoveAt(seen: seq<Record>, i: nat): (r: seq<Record>)
    requires i < |seen|
    ensures |r| == |seen| - 1
    ensures forall k :: 0 <= k < |r| ==> r[k] == if k < i then seen[k] else seen[k + 1]
  {
    seen[..i] + seen[i + 1..]
  }

  function Without(seen: seq<Record>, id: nat): seq<Record> {
    var i := Find(seen, id);
    if i < 0 then seen else RemoveAt(seen, i)
  }

  /** How many of the oldest records have expired. */
  function Expired(seen: seq<Record>, now: int, ttl: int): (n: nat)
    ensures n <= |seen|
    ensures forall i :: 0 <= i < n ==> now - seen[i].at >= ttl
    ensures n < |seen| ==> now - seen[n].at < ttl
  {
    if seen == [] || now - seen[0].at < ttl then 0 else 1 + Expired(seen[1..], now, ttl)
  }

  function Newest(seen: seq<Record>, capacity: nat): seq<Record> {
    if |seen| <= capacity then seen else seen[|seen| - capacity..]
  }

  datatype Cache = Cache(seen: seq<Record>, inFlight: set<nat>, capacity: nat, ttl: int) {

    predicate Knows(id: nat, now: int) {
      var i := Find(seen, id);
      (i >= 0 && now - seen[i].at < ttl) || id in inFlight
    }

    function Begin(id: nat, now: int): Cache {
      if Knows(id, now) then this else this.(inFlight := inFlight + {id})
    }

    function Evict(now: int): Cache {
      this.(seen := Newest(seen[Expired(seen, now, ttl)..], capacity))
    }

    function Complete(id: nat, now: int): Cache {
      this.(inFlight := inFlight - {id}, seen := Without(seen, id) + [Record(id, now)]).Evict(now)
    }

    function Release(id: nat): Cache {
      this.(inFlight := inFlight - {id})
    }
  }

  datatype Op =
    | Begin(id: nat, now: int)
    | Complete(id: nat, now: int)
    | Release(id: nat, now: int)

  function Run(capacity: nat, ttl: int, ops: seq<Op>): Cache {
    if ops == [] then Cache([], {}, capacity, ttl)
    else
      var c := Run(capacity, ttl, ops[..|ops| - 1]);
      match ops[|ops| - 1]
      case Begin(id, now) => c.Begin(id, now)
      case Complete(id, now) => c.Complete(id, now)
      case Release(id, _) => c.Release(id)
  }

  predicate Clocked(ops: seq<Op>) {
    forall i, j :: 0 <= i <= j < |ops| ==> ops[i].now <= ops[j].now
  }

  // The log the cache stands for: the last completion of every id, oldest first, with nothing ever dropped.

  function Completions(ops: seq<Op>): seq<Record> {
    if ops == [] then []
    else
      var before, op := Completions(ops[..|ops| - 1]), ops[|ops| - 1];
      if op.Complete? then Without(before, op.id) + [Record(op.id, op.now)] else before
  }

  ghost predicate Distinct(records: seq<Record>) {
    forall i, j :: 0 <= i < j < |records| ==> records[i].id != records[j].id
  }

  ghost predicate Ordered(records: seq<Record>) {
    forall i, j :: 0 <= i < j < |records| ==> records[i].at <= records[j].at
  }

  ghost predicate NotAfter(records: seq<Record>, now: int) {
    forall i :: 0 <= i < |records| ==> records[i].at <= now
  }

  /** Dropping the record of an id leaves the others in order. */
  lemma WithoutKeeps(records: seq<Record>, id: nat, now: int)
    requires Distinct(records) && Ordered(records) && NotAfter(records, now)
    ensures var r := Without(records, id);
            Distinct(r) && Ordered(r) && NotAfter(r, now) && forall k :: 0 <= k < |r| ==> r[k].id != id
  {
    var i, r := Find(records, id), Without(records, id);
    if i >= 0 {
      assert r == RemoveAt(records, i);
      assert forall k :: 0 <= k < |r| ==> r[k] == if k < i then records[k] else records[k + 1];
    }
  }

  lemma WithNewest(r: seq<Record>, x: Record, now: int)
    requires Distinct(r) && Ordered(r) && NotAfter(r, x.at) && (forall k :: 0 <= k < |r| ==> r[k].id != x.id) && x.at <= now
    ensures Distinct(r + [x]) && Ordered(r + [x]) && NotAfter(r + [x], now) && NotAfter(r, now)
  {
  }

  /** now is the time of the last operation, or anything later. */
  lemma {:induction false} LogShape(ops: seq<Op>, now: int)
    requires Clocked(ops) && (ops != [] ==> ops[|ops| - 1].now <= now)
    ensures Distinct(Completions(ops)) && Ordered(Completions(ops)) && NotAfter(Completions(ops), now)
    decreases |ops|
  {
    if ops != [] {
      var before, op := ops[..|ops| - 1], ops[|ops| - 1];
      LogShape(before, op.now);
      hide Without, Find;
      WithoutKeeps(Completions(before), op.id, op.now);
      WithNewest(Without(Completions(before), op.id), Record(op.id, op.now), now);
    }
  }

  ghost predicate IsSuffix(s: seq<Record>, log: seq<Record>) {
    |s| <= |log| && forall i :: |log| - |s| <= i < |log| ==> s[i - (|log| - |s|)] == log[i]
  }

  /** seen is the end of the log, and what is gone has expired or has at least capacity younger records. */
  ghost predicate Refines(seen: seq<Record>, log: seq<Record>, now: int, capacity: nat, ttl: int) {
    && IsSuffix(seen, log)
    && forall i :: 0 <= i < |log| - |seen| ==> now - log[i].at >= ttl || |log| - i > capacity
  }

  lemma FindIs(records: seq<Record>, id: nat, i: nat)
    requires Distinct(records) && i < |records| && records[i].id == id
    ensures Find(records, id) == i
  {
  }

  /** A record is found in the end of the log exactly when it is there. */
  lemma FindInSuffix(seen: seq<Record>, log: seq<Record>, id: nat)
    requires Distinct(log) && IsSuffix(seen, log)
    ensures var n := |log| - |seen|; Find(seen, id) == if Find(log, id) >= n then Find(log, id) - n else -1
  {
    hide Find;
    var n, i, k := |log| - |seen|, Find(log, id), Find(seen, id);
    if k >= 0 {
      FindIs(log, id, n + k);
    }
    assert i >= n ==> seen[i - n] == log[i];
  }

  lemma WithoutInSuffix(seen: seq<Record>, log: seq<Record>, id: nat)
    requires Distinct(log) && IsSuffix(seen, log)
    ensures IsSuffix(Without(seen, id), Without(log, id))
  {
    var n, i := |log| - |seen|, Find(log, id);
    FindInSuffix(seen, log, id);
    if i >= n {
      RemoveFromBoth(seen, log, i - n, i);
    } else if i >= 0 {
      RemoveBefore(seen, log, i);
    }
  }

  lemma RemoveFromBoth(seen: seq<Record>, log: seq<Record>, k: nat, i: nat)
    requires IsSuffix(seen, log) && i < |log| && k < |seen| && i == |log| - |seen| + k
    ensures IsSuffix(RemoveAt(seen, k), RemoveAt(log, i))
  {
  }

  lemma RemoveBefore(seen: seq<Record>, log: seq<Record>, i: nat)
    requires IsSuffix(seen, log) && i < |log| - |seen|
    ensures IsSuffix(seen, RemoveAt(log, i))
  {
  }

  lemma DroppedStays(seen: seq<Record>, log: seq<Record>, id: nat, now: int, capacity: nat, ttl: int, i: nat)
    requires Distinct(log) && Refines(seen, log, now, capacity, ttl)
    requires i + |Without(seen, id)| < |Without(log, id)|
    ensures now - Without(log, id)[i].at >= ttl || |Without(log, id)| + 1 - i > capacity
  {
    FindInSuffix(seen, log, id);
    var gone := Find(log, id);
    if gone >= 0 {
      assert Without(log, id)[i] == RemoveAt(log, gone)[i];
    }
  }

  lemma CompletionRefines(seen: seq<Record>, log: seq<Record>, id: nat, now: int, capacity: nat, ttl: int)
    requires Distinct(log) && Refines(seen, log, now, capacity, ttl)
    ensures Refines(Without(seen, id) + [Record(id, now)], Without(log, id) + [Record(id, now)], now, capacity, ttl)
  {
    WithoutInSuffix(seen, log, id);
    var s, r := Without(seen, id), Without(log, id);
    forall i | 0 <= i < |r| - |s| ensures now - r[i].at >= ttl || |r| + 1 - i > capacity {
      DroppedStays(seen, log, id, now, capacity, ttl, i);
    }
    hide Without;
  }

  lemma EvictionRefines(seen: seq<Record>, log: seq<Record>, now: int, capacity: nat, ttl: int)
    requires Refines(seen, log, now, capacity, ttl)
    ensures Refines(Newest(seen[Expired(seen, now, ttl)..], capacity), log, now, capacity, ttl)
  {
    hide Expired;
    var n, gone := Expired(seen, now, ttl), |log| - |seen|;
    var rest := seen[n..];
    assert forall i :: gone <= i < gone + n ==> log[i] == seen[i - gone];
    assert Refines(rest, log, now, capacity, ttl);
  }

  lemma RefinesLater(seen: seq<Record>, log: seq<Record>, before: int, now: int, capacity: nat, ttl: int)
    requires Refines(seen, log, before, capacity, ttl) && before <= now
    ensures Refines(seen, log, now, capacity, ttl)
  {
  }

  lemma CompleteRefines(c: Cache, log: seq<Record>, id: nat, now: int)
    requires Distinct(log) && Refines(c.seen, log, now, c.capacity, c.ttl)
    ensures var d := c.Complete(id, now);
            && Refines(d.seen, Without(log, id) + [Record(id, now)], now, c.capacity, c.ttl)
            && d.capacity == c.capacity && d.ttl == c.ttl && |d.seen| <= c.capacity
  {
    CompletionRefines(c.seen, log, id, now, c.capacity, c.ttl);
    EvictionRefines(Without(c.seen, id) + [Record(id, now)], Without(log, id) + [Record(id, now)], now, c.capacity, c.ttl);
  }

  /** In every run the cache holds the end of the log, and never more than its capacity. */
  lemma {:induction false} CacheRefinesLog(capacity: nat, ttl: int, ops: seq<Op>, now: int)
    requires Clocked(ops) && (ops != [] ==> ops[|ops| - 1].now <= now)
    ensures Refines(Run(capacity, ttl, ops).seen, Completions(ops), now, capacity, ttl)
    ensures |Run(capacity, ttl, ops).seen| <= capacity
    ensures Run(capacity, ttl, ops).capacity == capacity && Run(capacity, ttl, ops).ttl == ttl
    decreases |ops|
  {
    if ops != [] {
      var before, op := ops[..|ops| - 1], ops[|ops| - 1];
      CacheRefinesLog(capacity, ttl, before, op.now);
      LogShape(before, op.now);
      hide Refines, Without, Distinct, Ordered, Cache.Evict;
      if op.Complete? {
        CompleteRefines(Run(capacity, ttl, before), Completions(before), op.id, op.now);
        hide Cache.Complete;
      }
      RefinesLater(Run(capacity, ttl, ops).seen, Completions(ops), op.now, now, capacity, ttl);
    }
  }

  // What the cache answers.

  /** The id was completed within ttl, and since then fewer than capacity other ids were. */
  ghost predicate Remembered(log: seq<Record>, id: nat, now: int, capacity: nat, ttl: int) {
    exists i :: 0 <= i < |log| && log[i].id == id && now - log[i].at < ttl && |log| - i <= capacity
  }

  /**
   begin() turns an id away exactly when it is being delivered, or was completed less than ttl ago with fewer than
   capacity other ids completed since.
   */
  lemma BeginAgreesWithLog(capacity: nat, ttl: int, ops: seq<Op>, id: nat, now: int)
    requires Clocked(ops) && (ops != [] ==> ops[|ops| - 1].now <= now)
    ensures var c := Run(capacity, ttl, ops);
            c.Knows(id, now) <==> id in c.inFlight || Remembered(Completions(ops), id, now, capacity, ttl)
  {
    CacheRefinesLog(capacity, ttl, ops, now);
    LogShape(ops, now);
    hide Run, Completions, Refines, Remembered;
    KnownIffRemembered(Run(capacity, ttl, ops).seen, Completions(ops), id, now, capacity, ttl);
  }

  lemma KnownIffRemembered(seen: seq<Record>, log: seq<Record>, id: nat, now: int, capacity: nat, ttl: int)
    requires Refines(seen, log, now, capacity, ttl) && |seen| <= capacity && Distinct(log)
    ensures (Find(seen, id) >= 0 && now - seen[Find(seen, id)].at < ttl) <==> Remembered(log, id, now, capacity, ttl)
  {
    FindInSuffix(seen, log, id);
    var i, n := Find(log, id), |log| - |seen|;
    assert i >= n ==> seen[i - n] == log[i];
    forall k | 0 <= k < |log| && log[k].id == id ensures k == i {
      FindIs(log, id, k);
    }
    assert i >= 0 ==> log[i].id == id;
    hide Find, IsSuffix, Distinct;
    assert Remembered(log, id, now, capacity, ttl) <==> i >= 0 && now - log[i].at < ttl && |log| - i <= capacity;
  }

  /** After a completion nothing expired is left, and the completed id is the youngest record. */
  lemma CompleteLeavesFresh(c: Cache, id: nat, now: int)
    requires Distinct(c.seen) && Ordered(c.seen) && NotAfter(c.seen, now) && c.ttl > 0 && c.capacity > 0
    ensures var d := c.Complete(id, now);
            && Distinct(d.seen) && Ordered(d.seen) && NotAfter(d.seen, now)
            && (forall i :: 0 <= i < |d.seen| ==> now - d.seen[i].at < c.ttl)
            && 0 < |d.seen| <= c.capacity && d.seen[|d.seen| - 1] == Record(id, now)
            && id !in d.inFlight
  {
    WithoutKeeps(c.seen, id, now);
    var all := Without(c.seen, id) + [Record(id, now)];
    WithNewest(Without(c.seen, id), Record(id, now), now);
    hide Without, Expired, Newest, Distinct, Ordered, NotAfter;
    EvictLeavesFresh(all, Record(id, now), now, c.capacity, c.ttl);
  }

  lemma EvictLeavesFresh(all: seq<Record>, x: Record, now: int, capacity: nat, ttl: int)
    requires Distinct(all) && Ordered(all) && NotAfter(all, now) && ttl > 0 && capacity > 0
    requires all != [] && all[|all| - 1] == x && x.at == now
    ensures var seen := Newest(all[Expired(all, now, ttl)..], capacity);
            && Distinct(seen) && Ordered(seen) && NotAfter(seen, now)
            && (forall i :: 0 <= i < |seen| ==> now - seen[i].at < ttl)
            && 0 < |seen| <= capacity && seen[|seen| - 1] == x
  {
    hide Distinct, Ordered, NotAfter, Newest, Expired;
    var rest := all[Expired(all, now, ttl)..];
    UnexpiredTail(all, now, ttl);
    TailShape(all, Expired(all, now, ttl), now);
    NewestTail(rest, capacity, now, ttl);
    TailShape(rest, if |rest| <= capacity then 0 else |rest| - capacity, now);
  }

  lemma UnexpiredTail(all: seq<Record>, now: int, ttl: int)
    requires Ordered(all) && all != [] && all[|all| - 1].at == now && ttl > 0
    ensures var rest := all[Expired(all, now, ttl)..];
            && rest != [] && rest[|rest| - 1] == all[|all| - 1]
            && forall i :: 0 <= i < |rest| ==> now - rest[i].at < ttl
  {
    hide Expired;
    var n := Expired(all, now, ttl);
    assert n <= |all| - 1;
    assert forall i :: n < i < |all| ==> all[n].at <= all[i].at;
  }

  lemma NewestTail(rest: seq<Record>, capacity: nat, now: int, ttl: int)
    requires rest != [] && capacity > 0 && forall i :: 0 <= i < |rest| ==> now - rest[i].at < ttl
    ensures var seen := Newest(rest, capacity);
            && seen == rest[if |rest| <= capacity then 0 else |rest| - capacity..]
            && 0 < |seen| <= capacity && seen[|seen| - 1] == rest[|rest| - 1]
            && forall i :: 0 <= i < |seen| ==> now - seen[i].at < ttl
  {
  }

  lemma TailShape(s: seq<Record>, n: nat, now: int)
    requires n <= |s| && Distinct(s) && Ordered(s) && NotAfter(s, now)
    ensures Distinct(s[n..]) && Ordered(s[n..]) && NotAfter(s[n..], now)
  {
  }

  // Two sends of one id.

  /** Only what was taken with begin() is completed. */
  predicate Disciplined(capacity: nat, ttl: int, ops: seq<Op>) {
    forall j :: 0 <= j < |ops| && ops[j].Complete? ==> ops[j].id in Run(capacity, ttl, ops[..j]).inFlight
  }

  function Recent(log: seq<Record>, now: int, ttl: int): nat {
    if log == [] then 0
    else Recent(log[..|log| - 1], now, ttl) + if now - log[|log| - 1].at < ttl then 1 else 0
  }

  /** The positions of the completions less than ttl ago. */
  ghost function Unexpired(log: seq<Record>, now: int, ttl: int): set<nat> {
    set i: nat | i < |log| && now - log[i].at < ttl
  }

  /** Recent is their number. */
  lemma {:induction false} RecentIs(log: seq<Record>, now: int, ttl: int)
    ensures Recent(log, now, ttl) == |Unexpired(log, now, ttl)|
    decreases |log|
  {
    if log != [] {
      var n := |log| - 1;
      RecentIs(log[..n], now, ttl);
      assert Unexpired(log, now, ttl) == Unexpired(log[..n], now, ttl) + if now - log[n].at < ttl then {n} else {};
    }
  }

  lemma {:induction false} RecentCounts(log: seq<Record>, k: nat, now: int, ttl: int)
    requires k < |log| && Ordered(log) && now - log[k].at < ttl
    ensures Recent(log, now, ttl) >= |log| - k
    decreases |log|
  {
    if k < |log| - 1 {
      RecentCounts(log[..|log| - 1], k, now, ttl);
    }
  }

  lemma InFlightNext(capacity: nat, ttl: int, ops: seq<Op>, id: nat)
    requires ops != []
    ensures var c, op := Run(capacity, ttl, ops[..|ops| - 1]), ops[|ops| - 1];
            id in Run(capacity, ttl, ops).inFlight <==>
              if op.id != id then id in c.inFlight
              else op.Begin? && (id in c.inFlight || !c.Knows(id, op.now))
  {
    hide Newest, Expired, Without, Cache.Knows;
  }

  /** What is in flight was begun, and neither completed nor released since. */
  lemma {:induction false} BegunBefore(capacity: nat, ttl: int, ops: seq<Op>, id: nat) returns (b: nat)
    requires id in Run(capacity, ttl, ops).inFlight
    ensures b < |ops| && ops[b].Begin? && ops[b].id == id && !Run(capacity, ttl, ops[..b]).Knows(id, ops[b].now)
    ensures OnlyBegins(ops, b, id)
    decreases |ops|
  {
    NotAtStart(capacity, ttl, ops, id);
    hide Run, Cache.Knows, OnlyBegins;
    InFlightNext(capacity, ttl, ops, id);
    var before := ops[..|ops| - 1];
    if id in Run(capacity, ttl, before).inFlight {
      b := BegunBefore(capacity, ttl, before, id);
      PrefixBegins(ops, b, id);
    } else {
      b := |before|;
      LastBegins(ops, id);
    }
  }

  ghost predicate OnlyBegins(ops: seq<Op>, b: nat, id: nat) {
    forall m :: b < m < |ops| && ops[m].id == id ==> ops[m].Begin?
  }

  lemma NotAtStart(capacity: nat, ttl: int, ops: seq<Op>, id: nat)
    requires id in Run(capacity, ttl, ops).inFlight
    ensures ops != []
  {
  }

  lemma PrefixBegins(ops: seq<Op>, b: nat, id: nat)
    requires b < |ops| - 1 && OnlyBegins(ops[..|ops| - 1], b, id) && (ops[|ops| - 1].id == id ==> ops[|ops| - 1].Begin?)
    ensures OnlyBegins(ops, b, id) && ops[..|ops| - 1][..b] == ops[..b]
  {
    assert forall m :: 0 <= m < |ops| - 1 ==> ops[..|ops| - 1][m] == ops[m];
  }

  lemma LastBegins(ops: seq<Op>, id: nat)
    requires ops != []
    ensures OnlyBegins(ops, |ops| - 1, id)
  {
  }

  ghost predicate Logged(log: seq<Record>, id: nat, since: int) {
    exists k :: 0 <= k < |log| && log[k].id == id && log[k].at >= since
  }

  lemma StaysLogged(log: seq<Record>, id: nat, since: int, other: nat)
    requires Logged(log, id, since) && other != id
    ensures Logged(Without(log, other), id, since)
  {
    var k :| 0 <= k < |log| && log[k].id == id && log[k].at >= since;
    var gone, r := Find(log, other), Without(log, other);
    hide Find;
    if gone >= 0 {
      assert r == RemoveAt(log, gone);
      assert r[if k < gone then k else k - 1] == log[k];
    } else {
      assert r[k] == log[k];
    }
  }

  lemma LoggedBefore(log: seq<Record>, x: Record, id: nat, since: int)
    requires Logged(log, id, since) || (x.id == id && x.at >= since)
    ensures Logged(log + [x], id, since)
  {
    if Logged(log, id, since) {
      var k :| 0 <= k < |log| && log[k].id == id && log[k].at >= since;
      assert (log + [x])[k] == log[k];
    } else {
      assert (log + [x])[|log|] == x;
    }
  }

  /** A completion is in the log, at its time or a later one. */
  lemma {:induction false} CompletedIsLogged(ops: seq<Op>, i: nat)
    requires i < |ops| && ops[i].Complete? && Clocked(ops)
    ensures Logged(Completions(ops), ops[i].id, ops[i].now)
    decreases |ops|
  {
    var before, op := ops[..|ops| - 1], ops[|ops| - 1];
    hide Logged, Without;
    if i < |before| {
      CompletedIsLogged(before, i);
      if op.Complete? && op.id != ops[i].id {
        StaysLogged(Completions(before), ops[i].id, ops[i].now, op.id);
      }
    }
    if op.Complete? {
      LoggedBefore(Without(Completions(before), op.id), Record(op.id, op.now), ops[i].id, ops[i].now);
    }
  }

  /**
   Without a restart, two successful sends of one id are at least ttl apart, as long as no more than capacity ids are
   remembered as completed within one ttl.
   */
  lemma SendsApart(capacity: nat, ttl: int, ops: seq<Op>, i: nat, j: nat)
    requires Clocked(ops) && Disciplined(capacity, ttl, ops)
    requires i < j < |ops| && ops[i].Complete? && ops[j].Complete? && ops[i].id == ops[j].id
    requires forall b :: 0 <= b < |ops| ==> Recent(Completions(ops[..b]), ops[b].now, ttl) <= capacity
    ensures ops[j].now - ops[i].now >= ttl
  {
    var id := ops[i].id;
    var b := BegunBefore(capacity, ttl, ops[..j], id);
    assert ops[..j][..b] == ops[..b] && ops[..j][i] == ops[i] && ops[..j][b] == ops[b];
    assert i < b;
    var p := ops[..b];
    assert forall m :: 0 <= m < |p| ==> p[m] == ops[m];
    CompletedIsLogged(p, i);
    LogShape(p, ops[b].now);
    BeginAgreesWithLog(capacity, ttl, p, id, ops[b].now);
    hide Run, Completions, Remembered;
    var log := Completions(p);
    var k :| 0 <= k < |log| && log[k].id == id && log[k].at >= ops[i].now;
    RecentIsRemembered(log, k, ops[b].now, capacity, ttl);
  }

  lemma RecentIsRemembered(log: seq<Record>, k: nat, now: int, capacity: nat, ttl: int)
    requires k < |log| && Ordered(log) && Recent(log, now, ttl) <= capacity
    ensures now - log[k].at < ttl ==> Remembered(log, log[k].id, now, capacity, ttl)
  {
    if now - log[k].at < ttl {
      RecentCounts(log, k, now, ttl);
    }
  }

  class DeduplicationCache {
    var seen: seq<Record>
    var inFlight: set<nat>
    const capacity: nat
    const ttlMs: int

    constructor (capacity: nat := DEDUP_CAPACITY, ttlMs: int := DEDUP_TTL_MS)
      ensures View() == Cache([], {}, capacity, ttlMs)
    {
      seen, inFlight := [], {};
      this.capacity, this.ttlMs := capacity, ttlMs;
    }

    function View(): Cache
      reads this
    {
      Cache(seen, inFlight, capacity, ttlMs)
    }

    /** Takes an id into delivery, unless it was delivered within the window or is being delivered. */
    method Begin(messageId: nat, now: int) returns (taken: bool)
      modifies this`inFlight
      ensures View() == old(View()).Begin(messageId, now)
      ensures taken <==> !old(View()).Knows(messageId, now)
      ensures taken ==> messageId in inFlight && messageId !in old(inFlight)
    {
      var i := Find(seen, messageId);
      if i >= 0 && now - seen[i].at < ttlMs {
        return false;
      }
      if messageId in inFlight {
        return false;
      }
      inFlight := inFlight + {messageId};
      taken := true;
    }

    method Complete(messageId: nat, now: int)
      modifies this
      ensures View() == old(View()).Complete(messageId, now)
      ensures |seen| <= capacity && messageId !in inFlight
    {
      inFlight := inFlight - {messageId};
      seen := Without(seen, messageId) + [Record(messageId, now)];
      Evict(now);
    }

    method Release(messageId: nat)
      modifies this`inFlight
      ensures View() == old(View()).Release(messageId)
    {
      inFlight := inFlight - {messageId};
    }

    /** First the expired records at the front, then the oldest while there are too many. */
    method Evict(now: int)
      modifies this`seen
      ensures View() == old(View()).Evict(now)
      ensures |seen| <= capacity
    {
      var i := 0;
      while i < |seen| && now - seen[i].at >= ttlMs
        invariant i <= |seen| && i + Expired(seen[i..], now, ttlMs) == Expired(seen, now, ttlMs)
      {
        assert seen[i..][1..] == seen[i + 1..];
        i := i + 1;
      }
      assert i == Expired(seen, now, ttlMs);
      hide Expired;
      seen := seen[i..];
      EvictOldest();
    }

    method EvictOldest()
      modifies this`seen
      ensures seen == Newest(old(seen), capacity)
    {
      ghost var rest := seen;
      while |seen| > capacity
        invariant |seen| <= |rest| && seen == rest[|rest| - |seen|..]
        invariant |seen| >= (if |rest| <= capacity then |rest| else capacity)
      {
        seen := seen[1..];
      }
    }
  }
}
